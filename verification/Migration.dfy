/**
 Migrate as an ordered run of guarded statements over a database of tables, columns, rows and recorded
 versions. Each statement is committed on its own; the two rebuilds of api_keys are one transaction each.
 */
module Migration {
  import opened Prelude

  datatype TableName = Subscriptions | Accounts | ApiKeys | Admin | Users | UsageLogs | RequestLog(day: int)

  datatype Column =
    | Name | Provider | AuthType | CredentialsJson | MetadataJson | ProxyUrl | Status | Enabled | ConcurrencyLimit
    | QueueTimeoutSeconds | TokenExpiresAt | RateLimitResetAt | QuotaJson | QuotaCheckedAt | QuotaError | LastUsedAt
    | LastError | CreatedAt | UpdatedAt
    | QueueTimeoutMs | CredentialsEncrypted | ProxyUrlEncrypted | CredentialKeyId | CreatedByUserId
    | SubscriptionId | AccountId | UserId | KeyHash | KeyPlaintext | KeyPrefix | RpmLimit | Concurrency | ExpiresAt
    | Username | PasswordHash | TotpSecret | TotpSecretEnc | Role | Other(n: int)

  datatype Value = Null | Int(n: int)

  type Row = map<Column, Value>

  /** Rows by primary key. */
  datatype Table = Table(cols: set<Column>, rows: map<int, Row>)

  /** `versions` is schema_migrations without applied_at; `lastUser` the highest user id handed out. */
  datatype Db = Db(tables: map<TableName, Table>, versions: set<int>, lastUser: int)

  function Cell(row: Row, c: Column): Value { if c in row then row[c] else Null }

  function Cells(row: Row, cols: set<Column>): Row { map c | c in cols :: Cell(row, c) }

  predicate HasColumn(db: Db, t: TableName, c: Column) { t in db.tables && c in db.tables[t].cols }

  function Put(db: Db, t: TableName, table: Table): Db { db.(tables := db.tables[t := table]) }

  predicate Over(until: Option<int>, db: Db) { until.Some? && until.value in db.versions }

  // ---- The statements ----

  /** `until` names the version whose record makes the statement be skipped. Text values are numbered; '{}' is Int(0). */
  datatype Statement =
    | CreateTable(t: TableName, cols: set<Column>)
    | DropEmptySubscriptions
    | RenameAccountsEarly
    | AddColumn(until: Option<int>, t: TableName, c: Column, default: Value)
    | Record(v: int)
    | ConvertMilliseconds
    | RenameColumn(until: Option<int>, t: TableName, c: Column, d: Column)
    | DropColumn(until: Option<int>, t: TableName, c: Column)
    | RebuildKeysV5
    | CopyAdmin
    | DropUsageLogs
    | RenameAccountsV10
    | CopyAccounts
    | DropAccounts
    | RebuildKeysV10
    | RenameLogColumn(day: int)

  const SUBSCRIPTION_COLUMNS := {Name, Provider, AuthType, CredentialsJson, MetadataJson, ProxyUrl, Status, Enabled, ConcurrencyLimit,
    QueueTimeoutSeconds, TokenExpiresAt, RateLimitResetAt, QuotaJson, QuotaCheckedAt, QuotaError, LastUsedAt, LastError, CreatedAt, UpdatedAt}
  const KEY_COLUMNS := {SubscriptionId, UserId, Name, KeyHash, KeyPlaintext, KeyPrefix, Enabled, RpmLimit, Concurrency, ExpiresAt, CreatedAt}
  const ADMIN_COLUMNS := {Username, PasswordHash, TotpSecret, CreatedAt, UpdatedAt}
  const USER_COLUMNS := {Username, PasswordHash, Role, Enabled, CreatedAt, UpdatedAt}

  /** The columns of api_keys that both rebuilds copy under their own name; key_plaintext aside. */
  const COPIED_KEY_COLUMNS := {Name, KeyHash, KeyPrefix, Enabled, RpmLimit, Concurrency, ExpiresAt, CreatedAt}

  /** (ms + 999) / 1000 for positive milliseconds */
  function ToSeconds(ms: Value): Value {
    match ms
    case Null => Null
    case Int(n) => if n <= 0 then Int(0) else Int((n + 999) / 1000)
  }

  function Converted(row: Row): Row {
    if Cell(row, QueueTimeoutSeconds) == Int(0) then row[QueueTimeoutSeconds := ToSeconds(Cell(row, QueueTimeoutMs))] else row
  }

  function Added(table: Table, c: Column, default: Value): Table {
    Table(table.cols + {c}, map id | id in table.rows :: table.rows[id][c := default])
  }

  function Renamed(table: Table, c: Column, d: Column): Table {
    Table(table.cols - {c} + {d}, map id | id in table.rows :: (table.rows[id] - {c})[d := Cell(table.rows[id], c)])
  }

  function Dropped(table: Table, c: Column): Table {
    Table(table.cols - {c}, map id | id in table.rows :: table.rows[id] - {c})
  }

  /** The rows of api_keys in a rebuilt table: the owner from `source`, key_plaintext where the new table has it. */
  function RebuiltRow(row: Row, source: Column, cols: set<Column>): Row {
    Cells(row, cols)[SubscriptionId := Cell(row, source)]
  }

  function Rebuilt(table: Table, source: Column, cols: set<Column>): Table {
    Table(cols + {SubscriptionId}, map id | id in table.rows :: RebuiltRow(table.rows[id], source, cols))
  }

  /** The user row an admin row becomes. */
  function UserFromAdmin(row: Row): Row {
    map[Username := Cell(row, Username), PasswordHash := Cell(row, PasswordHash), Role := Int(1), Enabled := Int(1),
        CreatedAt := Cell(row, CreatedAt), UpdatedAt := Cell(row, UpdatedAt)]
  }

  /** INSERT OR IGNORE: accounts whose id is taken are left out. */
  function Merged(subs: Table, accounts: Table): Table {
    subs.(rows := map id | id in subs.rows.Keys + accounts.rows.Keys ::
      if id in subs.rows then subs.rows[id] else Cells(accounts.rows[id], SUBSCRIPTION_COLUMNS))
  }

  /** rebuildAPIKeysWithoutAccountUnique, which records version 5 in every branch. */
  function RebuildV5(db: Db): Db {
    var done := db.(versions := db.versions + {5});
    if 5 in db.versions then db
    else if !HasColumn(db, ApiKeys, AccountId) then done
    else
      var table := db.tables[ApiKeys];
      Put(done, ApiKeys, Rebuilt(table, AccountId, COPIED_KEY_COLUMNS + (if KeyPlaintext in table.cols then {KeyPlaintext} else {})))
  }

  /** rebuildAPIKeysSubscriptionID; see Stuck for the case where it fails. */
  function RebuildV10(db: Db): Db {
    if 10 in db.versions || !HasColumn(db, ApiKeys, AccountId) then db
    else Put(db, ApiKeys, Rebuilt(db.tables[ApiKeys], AccountId, COPIED_KEY_COLUMNS + {KeyPlaintext}))
  }

  function Apply(st: Statement, db: Db): Db {
    match st
    case CreateTable(t, cols) => if t in db.tables then db else Put(db, t, Table(cols, map[]))
    case DropEmptySubscriptions =>
      if Accounts in db.tables && Subscriptions in db.tables && db.tables[Subscriptions].rows == map[]
      then db.(tables := db.tables - {Subscriptions}) else db
    case RenameAccountsEarly =>
      if Accounts in db.tables && Subscriptions !in db.tables then RenameAccounts(db) else db
    case AddColumn(until, t, c, default) =>
      if Over(until, db) || t !in db.tables || c in db.tables[t].cols then db else Put(db, t, Added(db.tables[t], c, default))
    case Record(v) => db.(versions := db.versions + {v})
    case ConvertMilliseconds =>
      if 3 in db.versions || !HasColumn(db, Subscriptions, QueueTimeoutMs) then db
      else
        var table := db.tables[Subscriptions];
        Put(db, Subscriptions, table.(rows := map id | id in table.rows :: Converted(table.rows[id])))
    case RenameColumn(until, t, c, d) =>
      if Over(until, db) || HasColumn(db, t, d) || !HasColumn(db, t, c) then db else Put(db, t, Renamed(db.tables[t], c, d))
    case DropColumn(until, t, c) =>
      if Over(until, db) || !HasColumn(db, t, c) then db else Put(db, t, Dropped(db.tables[t], c))
    case RebuildKeysV5 => RebuildV5(db)
    case CopyAdmin =>
      if 6 in db.versions || Users !in db.tables || Admin !in db.tables || db.tables[Users].rows != map[] || 1 !in db.tables[Admin].rows then db
      else
        var users := db.tables[Users];
        Put(db, Users, users.(rows := map[db.lastUser + 1 := UserFromAdmin(db.tables[Admin].rows[1])])).(lastUser := db.lastUser + 1)
    case DropUsageLogs => if 7 in db.versions then db else db.(tables := db.tables - {UsageLogs})
    case RenameAccountsV10 =>
      if 10 !in db.versions && Accounts in db.tables && Subscriptions !in db.tables then RenameAccounts(db) else db
    case CopyAccounts =>
      if 10 in db.versions || Accounts !in db.tables || Subscriptions !in db.tables then db
      else Put(db, Subscriptions, Merged(db.tables[Subscriptions], db.tables[Accounts]))
    case DropAccounts =>
      if 10 in db.versions || Subscriptions !in db.tables then db else db.(tables := db.tables - {Accounts})
    case RebuildKeysV10 => RebuildV10(db)
    case RenameLogColumn(day) =>
      if 10 in db.versions || !HasColumn(db, RequestLog(day), AccountId) || HasColumn(db, RequestLog(day), SubscriptionId) then db
      else Put(db, RequestLog(day), Renamed(db.tables[RequestLog(day)], AccountId, SubscriptionId))
  }

  function RenameAccounts(db: Db): Db
    requires Accounts in db.tables
  {
    db.(tables := (db.tables - {Accounts})[Subscriptions := db.tables[Accounts]])
  }

  function Run(sts: seq<Statement>, db: Db): Db {
    if sts == [] then db else Run(sts[1..], Apply(sts[0], db))
  }

  // ---- The program, in phases ----

  const PHASE0 := [CreateTable(Subscriptions, SUBSCRIPTION_COLUMNS), CreateTable(ApiKeys, KEY_COLUMNS),
                   CreateTable(Admin, ADMIN_COLUMNS), CreateTable(Users, USER_COLUMNS), DropEmptySubscriptions, RenameAccountsEarly]

  function LogColumns(days: seq<int>): seq<Statement> {
    if days == [] then [] else [RenameLogColumn(days[0])] + LogColumns(days[1..])
  }

  /** The phases after the first; `days` is the listing of the request-log tables. */
  function Phase(p: nat, days: seq<int>): seq<Statement> {
    if p == 1 then [AddColumn(None, Subscriptions, QueueTimeoutSeconds, Int(0)), Record(1), Record(2)]
    else if p == 2 then [ConvertMilliseconds, Record(3)]
    else if p == 3 then [RenameColumn(Some(4), Subscriptions, CredentialsEncrypted, CredentialsJson), AddColumn(Some(4), Subscriptions, CredentialsJson, Int(0)),
                         RenameColumn(Some(4), Subscriptions, ProxyUrlEncrypted, ProxyUrl), AddColumn(Some(4), Subscriptions, ProxyUrl, Null),
                         DropColumn(Some(4), Subscriptions, CredentialKeyId), RenameColumn(Some(4), Admin, TotpSecretEnc, TotpSecret), Record(4)]
    else if p == 4 then [RebuildKeysV5]
    else if p == 5 then [CopyAdmin, Record(6)]
    else if p == 6 then [AddColumn(None, ApiKeys, KeyPlaintext, Null)]
    else if p == 7 then [DropUsageLogs, Record(7)]
    else if p == 8 then [Record(9)]
    else if p == 9 then [RenameAccountsV10, CopyAccounts, DropAccounts, DropColumn(Some(10), Subscriptions, CreatedByUserId)]
    else if p == 10 then [RebuildKeysV10] + LogColumns(days) + [Record(10)]
    else if p == 11 then [AddColumn(Some(11), ApiKeys, UserId, Null), Record(11)]
    else []
  }

  const LAST := 11

  /** The phases from `p` on. */
  function From(p: nat, days: seq<int>): seq<Statement>
    decreases LAST + 1 - p
  {
    if p > LAST then [] else Phase(p, days) + From(p + 1, days)
  }

  function Program(days: seq<int>): seq<Statement> { PHASE0 + From(1, days) }

  /** The phases up to and including `p`. */
  function Upto(p: nat, days: seq<int>): seq<Statement> {
    if p == 0 then PHASE0 else Upto(p - 1, days) + Phase(p, days)
  }

  /** An api_keys table with neither identity column, met before version 10: the one case in which Migrate returns an error. */
  predicate Stuck(db: Db) {
    10 !in db.versions && ApiKeys in db.tables && !HasColumn(db, ApiKeys, AccountId) && !HasColumn(db, ApiKeys, SubscriptionId)
  }

  /** What Migrate does: all of the program, or where it gets stuck the part before the second rebuild. */
  function Migrated(db: Db, days: seq<int>): Db {
    if Stuck(db) then Run(Upto(9, days), db) else Run(Program(days), db)
  }

  // ---- Runs and prefixes ----

  lemma {:induction false} RunAppend(a: seq<Statement>, b: seq<Statement>, db: Db)
    ensures Run(a + b, db) == Run(b, Run(a, db))
  {
    if a == [] {
      assert a + b == b;
    } else {
      assert (a + b)[0] == a[0] && (a + b)[1..] == a[1..] + b;
      RunAppend(a[1..], b, Apply(a[0], db));
    }
  }

  /** When a statement finds its work done. */
  predicate Settled(st: Statement, db: Db) {
    match st
    case CreateTable(t, _) => t in db.tables
    case DropEmptySubscriptions => Accounts !in db.tables || (Subscriptions in db.tables && db.tables[Subscriptions].rows != map[])
    case RenameAccountsEarly => Accounts !in db.tables || Subscriptions in db.tables
    case AddColumn(until, t, c, _) => Over(until, db) || t !in db.tables || c in db.tables[t].cols
    case Record(v) => v in db.versions
    case ConvertMilliseconds =>
      3 in db.versions || !HasColumn(db, Subscriptions, QueueTimeoutMs)
      || forall id :: id in db.tables[Subscriptions].rows ==> Converted(db.tables[Subscriptions].rows[id]) == db.tables[Subscriptions].rows[id]
    case RenameColumn(until, t, c, d) => Over(until, db) || HasColumn(db, t, d) || !HasColumn(db, t, c)
    case DropColumn(until, t, c) => Over(until, db) || !HasColumn(db, t, c)
    case RebuildKeysV5 => 5 in db.versions
    case CopyAdmin => 6 in db.versions || Users !in db.tables || db.tables[Users].rows != map[] || Admin !in db.tables || 1 !in db.tables[Admin].rows
    case DropUsageLogs => 7 in db.versions || UsageLogs !in db.tables
    case RenameAccountsV10 => 10 in db.versions || Accounts !in db.tables || Subscriptions in db.tables
    case CopyAccounts =>
      10 in db.versions || Accounts !in db.tables || Subscriptions !in db.tables
      || db.tables[Accounts].rows.Keys <= db.tables[Subscriptions].rows.Keys
    case DropAccounts => 10 in db.versions || Accounts !in db.tables
    case RebuildKeysV10 => 10 in db.versions || !HasColumn(db, ApiKeys, AccountId)
    case RenameLogColumn(day) => 10 in db.versions || !HasColumn(db, RequestLog(day), AccountId) || HasColumn(db, RequestLog(day), SubscriptionId)
  }

  lemma SettledIsIdentity(st: Statement, db: Db)
    requires Settled(st, db)
    ensures Apply(st, db) == db
  {
    match st
    case ConvertMilliseconds =>
      if 3 !in db.versions && HasColumn(db, Subscriptions, QueueTimeoutMs) {
        var table := db.tables[Subscriptions];
        var rows := map id | id in table.rows :: Converted(table.rows[id]);
        assert rows.Keys == table.rows.Keys;
        forall id | id in table.rows ensures rows[id] == table.rows[id] { assert rows[id] == Converted(table.rows[id]); }
        assert rows == table.rows;
        assert db.tables[Subscriptions := table] == db.tables;
      }
    case CopyAccounts =>
      if 10 !in db.versions && Accounts in db.tables && Subscriptions in db.tables {
        var subs := db.tables[Subscriptions];
        assert subs.rows.Keys + db.tables[Accounts].rows.Keys == subs.rows.Keys;
        assert Merged(subs, db.tables[Accounts]).rows == subs.rows;
        assert db.tables[Subscriptions := subs] == db.tables;
      }
    case DropUsageLogs => assert UsageLogs !in db.tables ==> db.tables - {UsageLogs} == db.tables;
    case DropAccounts => assert Accounts !in db.tables ==> db.tables - {Accounts} == db.tables;
    case Record(v) => assert db.versions + {v} == db.versions;
    case _ =>
  }

  ghost predicate AllSettled(sts: seq<Statement>, db: Db) { forall i :: 0 <= i < |sts| ==> Settled(sts[i], db) }

  lemma {:induction false} AllSettledIsIdentity(sts: seq<Statement>, db: Db)
    requires AllSettled(sts, db)
    ensures Run(sts, db) == db
  {
    if sts != [] {
      assert Settled(sts[0], db);
      SettledIsIdentity(sts[0], db);
      assert forall i :: 0 <= i < |sts[1..]| ==> sts[1..][i] == sts[i + 1];
      AllSettledIsIdentity(sts[1..], db);
    }
  }

  /** A stop inside a list whose finished part would change nothing is made good by running the list again. */
  lemma RestartList(sts: seq<Statement>, k: nat, db: Db)
    requires k <= |sts| && Run(sts[..k], Run(sts[..k], db)) == Run(sts[..k], db)
    ensures Run(sts, Run(sts[..k], db)) == Run(sts, db)
  {
    var mid := Run(sts[..k], db);
    assert sts == sts[..k] + sts[k..];
    RunAppend(sts[..k], sts[k..], db);
    RunAppend(sts[..k], sts[k..], mid);
  }
}

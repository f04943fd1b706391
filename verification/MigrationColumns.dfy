/**
 What becomes of the values in every column but those of api_keys and the queue timeouts: secrets move from their
 encrypted columns to the plain ones, request logs from account to subscription, and everything else stays.
 */
module MigrationColumns {
  import opened Prelude
  import opened Migration
  import opened MigrationRestart
  import opened MigrationEffects

  /** Row `id` of table `t` has `v` for column `c`. */
  ghost predicate Reads(db: Db, t: TableName, id: int, c: Column, v: Value) {
    t in db.tables && id in db.tables[t].rows && Cell(db.tables[t].rows[id], c) == v
  }

  /** And the table has the column, or (`there` false) has not. */
  ghost predicate Stands(db: Db, t: TableName, id: int, c: Column, there: bool, v: Value) {
    Reads(db, t, id, c, v) && (c in db.tables[t].cols <==> there)
  }

  /** The statements that leave such a cell alone. */
  predicate LeavesCell(st: Statement, t: TableName, c: Column, there: bool) {
    match st
    case DropEmptySubscriptions => t != Subscriptions
    case RenameAccountsEarly => t != Accounts
    case AddColumn(_, u, d, _) => u != t || d != c || there
    case ConvertMilliseconds => t != Subscriptions || c != QueueTimeoutSeconds
    case RenameColumn(_, u, from, to) => u != t || (from != c && (to != c || there))
    case DropColumn(_, u, d) => u != t || d != c
    case RebuildKeysV5 => t != ApiKeys
    case RebuildKeysV10 => t != ApiKeys
    case DropUsageLogs => t != UsageLogs
    case RenameAccountsV10 => t != Accounts
    case DropAccounts => t != Accounts
    case RenameLogColumn(day) => t != RequestLog(day) || (c != AccountId && (c != SubscriptionId || there))
    case _ => true
  }

  ghost predicate AllLeave(sts: seq<Statement>, t: TableName, c: Column, there: bool) {
    forall i :: 0 <= i < |sts| ==> LeavesCell(sts[i], t, c, there)
  }

  /** Those that change columns. */
  predicate OnColumns(st: Statement) { st.AddColumn? || st.RenameColumn? || st.DropColumn? || st.RenameLogColumn? }

  /** Those that make, drop or rename tables. */
  predicate OnTables(st: Statement) {
    st.CreateTable? || st.DropEmptySubscriptions? || st.RenameAccountsEarly? || st.RenameAccountsV10? || st.DropUsageLogs? || st.DropAccounts?
  }

  lemma RenamedLeaves(table: Table, from: Column, to: Column, id: int, c: Column)
    requires id in table.rows && c != from && c != to
    ensures var u := Renamed(table, from, to);
            id in u.rows && Cell(u.rows[id], c) == Cell(table.rows[id], c) && (c in u.cols <==> c in table.cols)
  {
  }

  lemma DroppedLeaves(table: Table, d: Column, id: int, c: Column)
    requires id in table.rows && c != d
    ensures var u := Dropped(table, d);
            id in u.rows && Cell(u.rows[id], c) == Cell(table.rows[id], c) && (c in u.cols <==> c in table.cols)
  {
  }

  lemma AddedLeaves(table: Table, d: Column, default: Value, id: int, c: Column)
    requires id in table.rows && c != d
    ensures var u := Added(table, d, default);
            id in u.rows && Cell(u.rows[id], c) == Cell(table.rows[id], c) && (c in u.cols <==> c in table.cols)
  {
  }

  /** A column statement puts a new table in the place of its own, if it does anything. */
  lemma PutStands(db: Db, t: TableName, u: TableName, table: Table, id: int, c: Column, there: bool, v: Value)
    requires Stands(db, t, id, c, there, v)
    requires u == t ==> id in table.rows && Cell(table.rows[id], c) == v && (c in table.cols <==> there)
    ensures Stands(Put(db, u, table), t, id, c, there, v)
  {
  }

  lemma AddLeaves(st: Statement, db: Db, t: TableName, id: int, c: Column, there: bool, v: Value)
    requires st.AddColumn? && LeavesCell(st, t, c, there) && Stands(db, t, id, c, there, v)
    ensures Stands(Apply(st, db), t, id, c, there, v)
  {
    if Apply(st, db) != db {
      var table := db.tables[st.t];
      if st.t == t { AddedLeaves(table, st.c, st.default, id, c); }
      PutStands(db, t, st.t, Added(table, st.c, st.default), id, c, there, v);
    }
  }

  lemma RenameLeaves(st: Statement, db: Db, t: TableName, id: int, c: Column, there: bool, v: Value)
    requires st.RenameColumn? && LeavesCell(st, t, c, there) && Stands(db, t, id, c, there, v)
    ensures Stands(Apply(st, db), t, id, c, there, v)
  {
    if Apply(st, db) != db {
      var table := db.tables[st.t];
      if st.t == t { RenamedLeaves(table, st.c, st.d, id, c); }
      PutStands(db, t, st.t, Renamed(table, st.c, st.d), id, c, there, v);
    }
  }

  lemma DropLeaves(st: Statement, db: Db, t: TableName, id: int, c: Column, there: bool, v: Value)
    requires st.DropColumn? && LeavesCell(st, t, c, there) && Stands(db, t, id, c, there, v)
    ensures Stands(Apply(st, db), t, id, c, there, v)
  {
    if Apply(st, db) != db {
      var table := db.tables[st.t];
      if st.t == t { DroppedLeaves(table, st.c, id, c); }
      PutStands(db, t, st.t, Dropped(table, st.c), id, c, there, v);
    }
  }

  lemma LogRenameLeaves(st: Statement, db: Db, t: TableName, id: int, c: Column, there: bool, v: Value)
    requires st.RenameLogColumn? && LeavesCell(st, t, c, there) && Stands(db, t, id, c, there, v)
    ensures Stands(Apply(st, db), t, id, c, there, v)
  {
    if Apply(st, db) != db {
      var table := db.tables[RequestLog(st.day)];
      if RequestLog(st.day) == t { RenamedLeaves(table, AccountId, SubscriptionId, id, c); }
      PutStands(db, t, RequestLog(st.day), Renamed(table, AccountId, SubscriptionId), id, c, there, v);
    }
  }

  lemma TableStatementLeaves(st: Statement, db: Db, t: TableName, id: int, c: Column, there: bool, v: Value)
    requires OnTables(st) && LeavesCell(st, t, c, there) && Stands(db, t, id, c, there, v)
    ensures Stands(Apply(st, db), t, id, c, there, v)
  {
  }

  lemma RowStatementLeaves(st: Statement, db: Db, t: TableName, id: int, c: Column, there: bool, v: Value)
    requires !OnColumns(st) && !OnTables(st) && LeavesCell(st, t, c, there) && Stands(db, t, id, c, there, v)
    ensures Stands(Apply(st, db), t, id, c, there, v)
  {
  }

  lemma StatementLeaves(st: Statement, db: Db, t: TableName, id: int, c: Column, there: bool, v: Value)
    requires LeavesCell(st, t, c, there) && Stands(db, t, id, c, there, v)
    ensures Stands(Apply(st, db), t, id, c, there, v)
  {
    if st.AddColumn? { AddLeaves(st, db, t, id, c, there, v); }
    else if st.RenameColumn? { RenameLeaves(st, db, t, id, c, there, v); }
    else if st.DropColumn? { DropLeaves(st, db, t, id, c, there, v); }
    else if st.RenameLogColumn? { LogRenameLeaves(st, db, t, id, c, there, v); }
    else if OnTables(st) { TableStatementLeaves(st, db, t, id, c, there, v); }
    else { RowStatementLeaves(st, db, t, id, c, there, v); }
  }

  lemma {:induction false} RunLeaves(sts: seq<Statement>, db: Db, t: TableName, id: int, c: Column, there: bool, v: Value)
    requires AllLeave(sts, t, c, there) && Stands(db, t, id, c, there, v)
    ensures Stands(Run(sts, db), t, id, c, there, v)
  {
    if sts != [] {
      assert LeavesCell(sts[0], t, c, there);
      StatementLeaves(sts[0], db, t, id, c, there, v);
      assert forall i :: 0 <= i < |sts[1..]| ==> sts[1..][i] == sts[i + 1];
      RunLeaves(sts[1..], Apply(sts[0], db), t, id, c, there, v);
    }
  }

  /** The columns a subscription keeps wherever it has them. */
  predicate Kept(c: Column) {
    c !in {CredentialsEncrypted, ProxyUrlEncrypted, CredentialKeyId, CreatedByUserId, QueueTimeoutSeconds}
  }

  /** Whether every phase after `p` leaves the cell alone. */
  predicate Safe(p: nat, t: TableName, c: Column, there: bool) {
    match t
    case Subscriptions => Kept(c) && there
    case Admin => (c != TotpSecretEnc || p >= 3) && (c != TotpSecret || there || p >= 3)
    case Users => true
    case RequestLog(_) => (c != AccountId || p >= 10) && (c != SubscriptionId || there || p >= 10)
    case _ => false
  }

  lemma SmallPhaseLeaves(p: nat, days: seq<int>, t: TableName, c: Column, there: bool)
    requires p in {1, 2, 4, 5, 6, 7, 8, 11} && Safe(p - 1, t, c, there)
    ensures AllLeave(Phase(p, days), t, c, there)
  {
  }

  lemma ThirdPhaseLeaves(days: seq<int>, t: TableName, c: Column, there: bool)
    requires Safe(2, t, c, there)
    ensures AllLeave(Phase(3, days), t, c, there)
  {
  }

  lemma NinthPhaseLeaves(days: seq<int>, t: TableName, c: Column, there: bool)
    requires Safe(8, t, c, there)
    ensures AllLeave(Phase(9, days), t, c, there)
  {
  }

  lemma TenthPhaseLeaves(days: seq<int>, t: TableName, c: Column, there: bool)
    requires Safe(9, t, c, there)
    ensures AllLeave(Phase(10, days), t, c, there)
  {
    LogColumnsAre(days);
  }

  lemma PhaseLeaves(p: nat, days: seq<int>, t: TableName, c: Column, there: bool)
    requires p >= 1 && Safe(p - 1, t, c, there)
    ensures AllLeave(Phase(p, days), t, c, there)
  {
    if p == 3 { ThirdPhaseLeaves(days, t, c, there); }
    else if p == 9 { NinthPhaseLeaves(days, t, c, there); }
    else if p == 10 { TenthPhaseLeaves(days, t, c, there); }
    else if p <= LAST { SmallPhaseLeaves(p, days, t, c, there); }
    else { assert Phase(p, days) == []; }
  }

  /** The later phases, none of which touches the cell. */
  lemma {:induction false} MoreLeave(p: nat, q: nat, days: seq<int>, t: TableName, c: Column, there: bool) returns (more: seq<Statement>)
    requires p <= q && Safe(p, t, c, there)
    ensures Upto(q, days) == Upto(p, days) + more && AllLeave(more, t, c, there)
    decreases q
  {
    if p == q {
      more := [];
    } else {
      var before := MoreLeave(p, q - 1, days, t, c, there);
      StaysSafe(p, q - 1, t, c, there);
      PhaseLeaves(q, days, t, c, there);
      LeaveAppend(before, Phase(q, days), t, c, there);
      Regroup(Upto(p, days), before, Phase(q, days));
      more := before + Phase(q, days);
    }
  }

  /** From phase to phase. */
  lemma StandsThrough(db: Db, days: seq<int>, p: nat, q: nat, t: TableName, id: int, c: Column, there: bool, v: Value)
    requires p <= q && Safe(p, t, c, there) && Stands(Run(Upto(p, days), db), t, id, c, there, v)
    ensures Stands(Run(Upto(q, days), db), t, id, c, there, v)
  {
    var more := MoreLeave(p, q, days, t, c, there);
    RunAppend(Upto(p, days), more, db);
    RunLeaves(more, Run(Upto(p, days), db), t, id, c, there, v);
  }

  lemma StaysSafe(p: nat, q: nat, t: TableName, c: Column, there: bool)
    requires p <= q && Safe(p, t, c, there)
    ensures Safe(q, t, c, there)
  {
  }

  /** A cell that is safe after phase `p` is as it is then when Migrate is over, whether it fails or not. */
  lemma Lasts(db: Db, days: seq<int>, p: nat, t: TableName, id: int, c: Column, there: bool, v: Value)
    requires p <= LAST && Safe(p, t, c, there) && Stands(Run(Upto(p, days), db), t, id, c, there, v) && (Stuck(db) ==> p <= 9)
    ensures Stands(Migrated(db, days), t, id, c, there, v)
  {
    if Stuck(db) {
      StandsThrough(db, days, p, 9, t, id, c, there, v);
    } else {
      StandsThrough(db, days, p, LAST, t, id, c, there, v);
      UptoThenFrom(LAST, days);
      assert Upto(LAST, days) + [] == Upto(LAST, days);
    }
  }

  lemma FirstPhaseLeaves(t: TableName, c: Column, there: bool)
    requires t != Subscriptions && t != Accounts
    ensures AllLeave(PHASE0, t, c, there)
  {
  }

  // ---- Subscriptions ----

  /** A column that is neither renamed, nor dropped, nor converted keeps its value in every row. */
  lemma SubscriptionColumnKept(db: Db, days: seq<int>, id: int, c: Column)
    requires id in FirstSubscriptions(db).rows && c in FirstSubscriptions(db).cols && Kept(c)
    ensures Stands(Migrated(db, days), Subscriptions, id, c, true, Cell(FirstSubscriptions(db).rows[id], c))
  {
    FirstPhaseSubscriptions(db);
    Lasts(db, days, 0, Subscriptions, id, c, true, Cell(FirstSubscriptions(db).rows[id], c));
  }

  /** The pairs of columns that phase 3 renames or adds, with the default of the new one. */
  predicate PlainPair(c: Column, d: Column, default: Value) {
    (c == CredentialsEncrypted && d == CredentialsJson && default == Int(0)) || (c == ProxyUrlEncrypted && d == ProxyUrl && default == Null)
  }

  /** The rename and the addition, of which at most one does anything. */
  lemma RenamedOrAdded(db: Db, id: int, c: Column, d: Column, default: Value, there: bool, v: Value)
    requires PlainPair(c, d, default) && 4 !in db.versions && !HasColumn(db, Subscriptions, d)
    requires Stands(db, Subscriptions, id, c, there, v)
    ensures var after := Apply(AddColumn(Some(4), Subscriptions, d, default), Apply(RenameColumn(Some(4), Subscriptions, c, d), db));
            Stands(after, Subscriptions, id, d, true, if there then v else default)
  {
  }

  lemma EarlyPhasesLeave(days: seq<int>, t: TableName, c: Column, there: bool)
    requires t == Admin || (t == Subscriptions && c != QueueTimeoutSeconds)
    ensures AllLeave(Phase(1, days), t, c, there) && AllLeave(Phase(2, days), t, c, there)
  {
  }

  lemma EarlyStands(db: Db, days: seq<int>, t: TableName, id: int, c: Column, there: bool, v: Value)
    requires t == Admin || (t == Subscriptions && c != QueueTimeoutSeconds)
    requires Stands(Run(Upto(0, days), db), t, id, c, there, v)
    ensures Stands(Run(Upto(2, days), db), t, id, c, there, v)
  {
    EarlyPhasesLeave(days, t, c, there);
    UptoStep(1, days, db);
    RunLeaves(Phase(1, days), Run(Upto(0, days), db), t, id, c, there, v);
    UptoStep(2, days, db);
    RunLeaves(Phase(2, days), Run(Upto(1, days), db), t, id, c, there, v);
  }

  /** What stands in the first subscriptions table stands until phase 2 is over, if the two first phases leave it. */
  lemma StandsUntilThree(db: Db, days: seq<int>, id: int, c: Column)
    requires id in FirstSubscriptions(db).rows && c != QueueTimeoutSeconds
    ensures var t := FirstSubscriptions(db);
            Stands(Run(Upto(2, days), db), Subscriptions, id, c, c in t.cols, Cell(t.rows[id], c))
  {
    var there, v := c in FirstSubscriptions(db).cols, Cell(FirstSubscriptions(db).rows[id], c);
    FirstPhaseSubscriptions(db);
    EarlyStands(db, days, Subscriptions, id, c, there, v);
  }

  lemma FourUntilThree(db: Db, days: seq<int>)
    ensures 4 in Run(Upto(2, days), db).versions <==> 4 in db.versions
  {
    UptoStep(1, days, db);
    UptoStep(2, days, db);
    RunVersions(PHASE0, db, 4);
    RunVersions(Phase(1, days), Run(Upto(0, days), db), 4);
    RunVersions(Phase(2, days), Run(Upto(1, days), db), 4);
  }

  /** The third phase: what stands before a pair's two statements, the two, and what stands after them. */
  lemma PairRuns(before: seq<Statement>, after: seq<Statement>, db: Db, id: int, c: Column, d: Column, default: Value, there: bool, v: Value, w: Value)
    requires PlainPair(c, d, default) && 4 !in db.versions
    requires Stands(db, Subscriptions, id, c, there, v) && Stands(db, Subscriptions, id, d, false, w)
    requires AllLeave(before, Subscriptions, c, there) && AllLeave(before, Subscriptions, d, false) && AllLeave(after, Subscriptions, d, true)
    requires forall i :: 0 <= i < |before| ==> !Records(before[i], 4)
    ensures var pair := [RenameColumn(Some(4), Subscriptions, c, d), AddColumn(Some(4), Subscriptions, d, default)];
            Stands(Run(before + (pair + after), db), Subscriptions, id, d, true, if there then v else default)
  {
    var pair := [RenameColumn(Some(4), Subscriptions, c, d), AddColumn(Some(4), Subscriptions, d, default)];
    RunAppend(before, pair + after, db);
    RunLeaves(before, db, Subscriptions, id, c, there, v);
    RunLeaves(before, db, Subscriptions, id, d, false, w);
    RunVersions(before, db, 4);
    var mid := Run(before, db);
    RunAppend(pair, after, mid);
    assert pair == [pair[0]] + [pair[1]];
    RunAppend([pair[0]], [pair[1]], mid);
    RunOne(pair[0], mid);
    RunOne(pair[1], Apply(pair[0], mid));
    RenamedOrAdded(mid, id, c, d, default, there, v);
    RunLeaves(after, Run(pair, mid), Subscriptions, id, d, true, if there then v else default);
  }

  lemma CredentialsInPhaseThree(db: Db, days: seq<int>, id: int, there: bool, v: Value, w: Value)
    requires 4 !in db.versions
    requires Stands(db, Subscriptions, id, CredentialsEncrypted, there, v) && Stands(db, Subscriptions, id, CredentialsJson, false, w)
    ensures Stands(Run(Phase(3, days), db), Subscriptions, id, CredentialsJson, true, if there then v else Int(0))
  {
    var pair := [RenameColumn(Some(4), Subscriptions, CredentialsEncrypted, CredentialsJson), AddColumn(Some(4), Subscriptions, CredentialsJson, Int(0))];
    var after := Phase(3, days)[2..];
    assert Phase(3, days) == [] + (pair + after);
    PairRuns([], after, db, id, CredentialsEncrypted, CredentialsJson, Int(0), there, v, w);
  }

  lemma ProxyInPhaseThree(db: Db, days: seq<int>, id: int, there: bool, v: Value, w: Value)
    requires 4 !in db.versions
    requires Stands(db, Subscriptions, id, ProxyUrlEncrypted, there, v) && Stands(db, Subscriptions, id, ProxyUrl, false, w)
    ensures Stands(Run(Phase(3, days), db), Subscriptions, id, ProxyUrl, true, if there then v else Null)
  {
    var before, after := Phase(3, days)[..2], Phase(3, days)[4..];
    var pair := [RenameColumn(Some(4), Subscriptions, ProxyUrlEncrypted, ProxyUrl), AddColumn(Some(4), Subscriptions, ProxyUrl, Null)];
    assert Phase(3, days) == before + (pair + after);
    PairRuns(before, after, db, id, ProxyUrlEncrypted, ProxyUrl, Null, there, v, w);
  }

  lemma ThirdPhase(db: Db, days: seq<int>, id: int, c: Column, d: Column, default: Value, there: bool, v: Value, w: Value)
    requires PlainPair(c, d, default) && 4 !in db.versions
    requires Stands(db, Subscriptions, id, c, there, v) && Stands(db, Subscriptions, id, d, false, w)
    ensures Stands(Run(Phase(3, days), db), Subscriptions, id, d, true, if there then v else default)
  {
    if c == CredentialsEncrypted { CredentialsInPhaseThree(db, days, id, there, v, w); }
    else { ProxyInPhaseThree(db, days, id, there, v, w); }
  }

  /**
   Every subscription's credentials and proxy end in the plain column: as they were if it was there, else, where
   version 4 is not recorded, the old encrypted column's value, or the default without one.
   */
  lemma SecretsInPlainColumns(db: Db, days: seq<int>, id: int, c: Column, d: Column, default: Value)
    requires id in FirstSubscriptions(db).rows && (4 !in db.versions || d in FirstSubscriptions(db).cols)
    requires (c == CredentialsEncrypted && d == CredentialsJson && default == Int(0)) || (c == ProxyUrlEncrypted && d == ProxyUrl && default == Null)
    ensures var t := FirstSubscriptions(db);
            Stands(Migrated(db, days), Subscriptions, id, d, true,
                   if d in t.cols then Cell(t.rows[id], d) else if c in t.cols then Cell(t.rows[id], c) else default)
  {
    var t := FirstSubscriptions(db);
    if d in t.cols {
      SubscriptionColumnKept(db, days, id, d);
    } else {
      StandsUntilThree(db, days, id, c);
      StandsUntilThree(db, days, id, d);
      FourUntilThree(db, days);
      UptoStep(3, days, db);
      ThirdPhase(Run(Upto(2, days), db), days, id, c, d, default, c in t.cols, Cell(t.rows[id], c), Cell(t.rows[id], d));
      Lasts(db, days, 3, Subscriptions, id, d, true, if c in t.cols then Cell(t.rows[id], c) else default);
    }
  }

  /** SecretsInPlainColumns for every subscription. */
  ghost predicate SecretsKept(db: Db, after: Db) {
    var t := FirstSubscriptions(db);
    forall id :: id in t.rows ==>
      && (4 !in db.versions || CredentialsJson in t.cols ==>
            Stands(after, Subscriptions, id, CredentialsJson, true,
                   if CredentialsJson in t.cols then Cell(t.rows[id], CredentialsJson)
                   else if CredentialsEncrypted in t.cols then Cell(t.rows[id], CredentialsEncrypted) else Int(0)))
      && (4 !in db.versions || ProxyUrl in t.cols ==>
            Stands(after, Subscriptions, id, ProxyUrl, true,
                   if ProxyUrl in t.cols then Cell(t.rows[id], ProxyUrl)
                   else if ProxyUrlEncrypted in t.cols then Cell(t.rows[id], ProxyUrlEncrypted) else Null))
  }

  lemma AllSecretsKept(db: Db, days: seq<int>)
    ensures SecretsKept(db, Migrated(db, days))
  {
    var t := FirstSubscriptions(db);
    forall id | id in t.rows && (4 !in db.versions || CredentialsJson in t.cols)
      ensures Stands(Migrated(db, days), Subscriptions, id, CredentialsJson, true,
                     if CredentialsJson in t.cols then Cell(t.rows[id], CredentialsJson)
                     else if CredentialsEncrypted in t.cols then Cell(t.rows[id], CredentialsEncrypted) else Int(0))
    {
      SecretsInPlainColumns(db, days, id, CredentialsEncrypted, CredentialsJson, Int(0));
    }
    forall id | id in t.rows && (4 !in db.versions || ProxyUrl in t.cols)
      ensures Stands(Migrated(db, days), Subscriptions, id, ProxyUrl, true,
                     if ProxyUrl in t.cols then Cell(t.rows[id], ProxyUrl)
                     else if ProxyUrlEncrypted in t.cols then Cell(t.rows[id], ProxyUrlEncrypted) else Null)
    {
      SecretsInPlainColumns(db, days, id, ProxyUrlEncrypted, ProxyUrl, Null);
    }
  }

  /** A subscription that is copied from accounts keeps the value of every column the new schema has. */
  lemma CopiedColumnKept(db: Db, days: seq<int>, id: int, c: Column)
    requires Accounts in db.tables && Waiting(db, db.tables[Accounts], id)
    requires c in SUBSCRIPTION_COLUMNS && c != QueueTimeoutSeconds
    ensures Reads(Migrated(db, days), Subscriptions, id, c, Cell(db.tables[Accounts].rows[id], c))
  {
    var accounts := db.tables[Accounts];
    UptoLeavesAccounts(8, days);
    RunLeavesAccounts(Upto(8, days), db, accounts, id);
    UptoStep(9, days, db);
    CopiedAtNine(Run(Upto(8, days), db), days, accounts, id, c);
    LastsAfterNine(db, days, id, c, Cell(accounts.rows[id], c));
  }

  lemma CopiedAtNine(db: Db, days: seq<int>, accounts: Table, id: int, c: Column)
    requires Waiting(db, accounts, id) && c in SUBSCRIPTION_COLUMNS
    ensures Reads(Run(Phase(9, days), db), Subscriptions, id, c, Cell(accounts.rows[id], c))
  {
    var v := Cell(accounts.rows[id], c);
    NinthPhase(db, days);
    NotRenamed(db, accounts, id);
    CopiedCell(db, accounts, id, c);
    CopyStays(Apply(CopyAccounts, db), id, c, v);
  }

  lemma NinthPhase(db: Db, days: seq<int>)
    ensures Run(Phase(9, days), db) == Run(AFTER_COPY, Apply(CopyAccounts, Apply(RenameAccountsV10, db)))
  {
    assert Phase(9, days) == [RenameAccountsV10] + ([CopyAccounts] + AFTER_COPY);
    RunAppend([RenameAccountsV10], [CopyAccounts] + AFTER_COPY, db);
    RunOne(RenameAccountsV10, db);
    RunAppend([CopyAccounts], AFTER_COPY, Apply(RenameAccountsV10, db));
    RunOne(CopyAccounts, Apply(RenameAccountsV10, db));
  }

  /** What follows the copying of accounts in its phase. */
  const AFTER_COPY := [DropAccounts, DropColumn(Some(10), Subscriptions, CreatedByUserId)]

  lemma CopyStays(db: Db, id: int, c: Column, v: Value)
    requires c in SUBSCRIPTION_COLUMNS && Reads(db, Subscriptions, id, c, v)
    ensures Reads(Run(AFTER_COPY, db), Subscriptions, id, c, v)
  {
    RunLeaves(AFTER_COPY, db, Subscriptions, id, c, HasColumn(db, Subscriptions, c), v);
  }

  lemma CopiedCell(db: Db, accounts: Table, id: int, c: Column)
    requires Waiting(db, accounts, id) && c in SUBSCRIPTION_COLUMNS
    ensures Reads(Apply(CopyAccounts, db), Subscriptions, id, c, Cell(accounts.rows[id], c))
  {
  }

  // ---- The last two phases leave subscriptions alone ----

  lemma LateLeaves(days: seq<int>, c: Column, there: bool)
    ensures AllLeave(Phase(10, days), Subscriptions, c, there) && AllLeave(Phase(11, days), Subscriptions, c, there)
  {
    LogColumnsAre(days);
  }

  lemma LastsAfterNine(db: Db, days: seq<int>, id: int, c: Column, v: Value)
    requires Reads(Run(Upto(9, days), db), Subscriptions, id, c, v)
    ensures Reads(Migrated(db, days), Subscriptions, id, c, v)
  {
    if !Stuck(db) {
      LateStays(Run(Upto(9, days), db), days, id, c, v);
      UptoStep(10, days, db);
      UptoStep(11, days, db);
      UptoThenFrom(LAST, days);
      assert Upto(LAST, days) + [] == Upto(LAST, days);
    }
  }

  lemma LateStays(db: Db, days: seq<int>, id: int, c: Column, v: Value)
    requires Reads(db, Subscriptions, id, c, v)
    ensures Reads(Run(Phase(11, days), Run(Phase(10, days), db)), Subscriptions, id, c, v)
  {
    var there := HasColumn(db, Subscriptions, c);
    LateLeaves(days, c, there);
    RunLeaves(Phase(10, days), db, Subscriptions, id, c, there, v);
    RunLeaves(Phase(11, days), Run(Phase(10, days), db), Subscriptions, id, c, there, v);
  }

  // ---- The admin and the user made of it ----

  lemma AdminUntilThree(db: Db, days: seq<int>, id: int, c: Column)
    requires Admin in db.tables && id in db.tables[Admin].rows
    ensures Stands(Run(Upto(2, days), db), Admin, id, c, c in db.tables[Admin].cols, Cell(db.tables[Admin].rows[id], c))
  {
    var there, v := c in db.tables[Admin].cols, Cell(db.tables[Admin].rows[id], c);
    FirstPhaseLeaves(Admin, c, there);
    RunLeaves(PHASE0, db, Admin, id, c, there, v);
    EarlyStands(db, days, Admin, id, c, there, v);
  }

  /** Every column of the admin that is not renamed keeps its value. */
  lemma AdminColumnKept(db: Db, days: seq<int>, id: int, c: Column)
    requires Admin in db.tables && id in db.tables[Admin].rows && c in db.tables[Admin].cols && c != TotpSecretEnc
    ensures Stands(Migrated(db, days), Admin, id, c, true, Cell(db.tables[Admin].rows[id], c))
  {
    FirstPhaseLeaves(Admin, c, true);
    RunLeaves(PHASE0, db, Admin, id, c, true, Cell(db.tables[Admin].rows[id], c));
    Lasts(db, days, 0, Admin, id, c, true, Cell(db.tables[Admin].rows[id], c));
  }

  lemma TotpInPhaseThree(db: Db, days: seq<int>, id: int, v: Value, w: Value)
    requires 4 !in db.versions && Stands(db, Admin, id, TotpSecretEnc, true, v) && Stands(db, Admin, id, TotpSecret, false, w)
    ensures Stands(Run(Phase(3, days), db), Admin, id, TotpSecret, true, v)
  {
    var before, move := Phase(3, days)[..5], RenameColumn(Some(4), Admin, TotpSecretEnc, TotpSecret);
    assert Phase(3, days) == before + ([move] + [Record(4)]);
    RunAppend(before, [move] + [Record(4)], db);
    OtherTableLeaves(before, db, id, v, w);
    var mid := Run(before, db);
    RunAppend([move], [Record(4)], mid);
    RunOne(move, mid);
    RunOne(Record(4), Apply(move, mid));
  }

  lemma OtherTableLeaves(before: seq<Statement>, db: Db, id: int, v: Value, w: Value)
    requires Stands(db, Admin, id, TotpSecretEnc, true, v) && Stands(db, Admin, id, TotpSecret, false, w)
    requires forall i :: 0 <= i < |before| ==>
               (before[i].RenameColumn? || before[i].AddColumn? || before[i].DropColumn?) && before[i].t == Subscriptions
    ensures Stands(Run(before, db), Admin, id, TotpSecretEnc, true, v) && Stands(Run(before, db), Admin, id, TotpSecret, false, w)
    ensures 4 in Run(before, db).versions <==> 4 in db.versions
  {
    RunLeaves(before, db, Admin, id, TotpSecretEnc, true, v);
    RunLeaves(before, db, Admin, id, TotpSecret, false, w);
    RunVersions(before, db, 4);
  }

  /** The second-factor secret moves to its plain column where that is missing and version 4 is not recorded. */
  lemma TotpSecretInPlainColumn(db: Db, days: seq<int>, id: int)
    requires Admin in db.tables && id in db.tables[Admin].rows && 4 !in db.versions
    requires TotpSecretEnc in db.tables[Admin].cols && TotpSecret !in db.tables[Admin].cols
    ensures Stands(Migrated(db, days), Admin, id, TotpSecret, true, Cell(db.tables[Admin].rows[id], TotpSecretEnc))
  {
    AdminUntilThree(db, days, id, TotpSecretEnc);
    AdminUntilThree(db, days, id, TotpSecret);
    FourUntilThree(db, days);
    UptoStep(3, days, db);
    var row := db.tables[Admin].rows[id];
    TotpInPhaseThree(Run(Upto(2, days), db), days, id, Cell(row, TotpSecretEnc), Cell(row, TotpSecret));
    Lasts(db, days, 3, Admin, id, TotpSecret, true, Cell(row, TotpSecretEnc));
  }

  /** No users yet, and the last id handed out. */
  ghost predicate NoUsers(db: Db, last: int) { Users in db.tables && db.tables[Users].rows == map[] && db.lastUser == last }

  /** The statements that leave the users table alone. */
  predicate LeavesUsers(st: Statement) {
    match st
    case AddColumn(_, t, _, _) => t != Users
    case RenameColumn(_, t, _, _) => t != Users
    case DropColumn(_, t, _) => t != Users
    case CopyAdmin => false
    case _ => true
  }

  lemma StatementLeavesUsers(st: Statement, db: Db)
    requires LeavesUsers(st) && Users in db.tables
    ensures Users in Apply(st, db).tables && Apply(st, db).tables[Users] == db.tables[Users] && Apply(st, db).lastUser == db.lastUser
  {
  }

  lemma {:induction false} RunLeavesUsers(sts: seq<Statement>, db: Db)
    requires Users in db.tables && forall i :: 0 <= i < |sts| ==> LeavesUsers(sts[i])
    ensures Users in Run(sts, db).tables && Run(sts, db).tables[Users] == db.tables[Users] && Run(sts, db).lastUser == db.lastUser
  {
    if sts != [] {
      assert LeavesUsers(sts[0]);
      StatementLeavesUsers(sts[0], db);
      assert forall i :: 0 <= i < |sts[1..]| ==> sts[1..][i] == sts[i + 1];
      RunLeavesUsers(sts[1..], Apply(sts[0], db));
    }
  }

  lemma PhaseLeavesUsers(p: nat, days: seq<int>)
    requires p >= 1 && p != 5
    ensures forall i :: 0 <= i < |Phase(p, days)| ==> LeavesUsers(Phase(p, days)[i])
  {
    LogColumnsAre(days);
  }

  /** The users table from phase `p` to phase `q`, none of them the fifth. */
  lemma {:induction false} UsersThrough(db: Db, days: seq<int>, p: nat, q: nat)
    requires p <= q && (q < 5 || p >= 5) && Users in Run(Upto(p, days), db).tables
    ensures var a, b := Run(Upto(p, days), db), Run(Upto(q, days), db);
            Users in b.tables && b.tables[Users] == a.tables[Users] && b.lastUser == a.lastUser
    decreases q
  {
    if p < q {
      UsersThrough(db, days, p, q - 1);
      UptoStep(q, days, db);
      PhaseLeavesUsers(q, days);
      RunLeavesUsers(Phase(q, days), Run(Upto(q - 1, days), db));
    }
  }

  lemma UsersMade(db: Db)
    requires Users in db.tables ==> db.tables[Users].rows == map[]
    ensures NoUsers(Run(PHASE0, db), db.lastUser)
  {
    RunSix(PHASE0, db);
    UsersInSchema(db);
    var made := Apply(PHASE0[3], Apply(PHASE0[2], Apply(PHASE0[1], Apply(PHASE0[0], db))));
    StatementLeavesUsers(PHASE0[4], made);
    StatementLeavesUsers(PHASE0[5], Apply(PHASE0[4], made));
  }

  lemma UsersInSchema(db: Db)
    requires Users in db.tables ==> db.tables[Users].rows == map[]
    ensures NoUsers(Apply(PHASE0[3], Apply(PHASE0[2], Apply(PHASE0[1], Apply(PHASE0[0], db)))), db.lastUser)
  {
  }

  /** There is one user, of this name and password, enabled and an admin. */
  ghost predicate OneUser(db: Db, id: int, username: Value, password: Value) {
    && Users in db.tables && db.tables[Users].rows.Keys == {id}
    && Reads(db, Users, id, Username, username) && Reads(db, Users, id, PasswordHash, password)
    && Reads(db, Users, id, Role, Int(1)) && Reads(db, Users, id, Enabled, Int(1))
  }

  lemma SameUser(db: Db, after: Db, id: int, username: Value, password: Value)
    requires OneUser(db, id, username, password) && Users in after.tables && after.tables[Users] == db.tables[Users]
    ensures OneUser(after, id, username, password)
  {
  }

  /** The fifth phase makes the user. */
  lemma UserInPhaseFive(db: Db, days: seq<int>, last: int, username: Value, password: Value)
    requires 6 !in db.versions && NoUsers(db, last) && Reads(db, Admin, 1, Username, username) && Reads(db, Admin, 1, PasswordHash, password)
    ensures OneUser(Run(Phase(5, days), db), last + 1, username, password)
  {
    assert Phase(5, days) == [CopyAdmin] + [Record(6)];
    RunAppend([CopyAdmin], [Record(6)], db);
    RunOne(CopyAdmin, db);
    RunOne(Record(6), Apply(CopyAdmin, db));
    AdminCopied(db, last, username, password);
  }

  lemma AdminCopied(db: Db, last: int, username: Value, password: Value)
    requires 6 !in db.versions && NoUsers(db, last) && Reads(db, Admin, 1, Username, username) && Reads(db, Admin, 1, PasswordHash, password)
    ensures OneUser(Apply(CopyAdmin, db), last + 1, username, password)
  {
  }

  lemma AdminUntilFive(db: Db, days: seq<int>, c: Column)
    requires Admin in db.tables && 1 in db.tables[Admin].rows && c in {Username, PasswordHash}
    ensures Reads(Run(Upto(4, days), db), Admin, 1, c, Cell(db.tables[Admin].rows[1], c))
  {
    var there, v := c in db.tables[Admin].cols, Cell(db.tables[Admin].rows[1], c);
    AdminUntilThree(db, days, 1, c);
    StandsThrough(db, days, 2, 4, Admin, 1, c, there, v);
  }

  lemma {:induction false} SixUntilFive(p: nat, days: seq<int>)
    requires p <= 4
    ensures forall i :: 0 <= i < |Upto(p, days)| ==> !Records(Upto(p, days)[i], 6)
  {
    if p > 0 {
      SixUntilFive(p - 1, days);
      assert forall i :: 0 <= i < |Phase(p, days)| ==> !Records(Phase(p, days)[i], 6);
    }
  }

  lemma SixAtFour(db: Db, days: seq<int>)
    ensures 6 in Run(Upto(4, days), db).versions <==> 6 in db.versions
  {
    SixUntilFive(4, days);
    RunVersions(Upto(4, days), db, 6);
  }

  lemma NoUsersAtFour(db: Db, days: seq<int>)
    requires Users in db.tables ==> db.tables[Users].rows == map[]
    ensures NoUsers(Run(Upto(4, days), db), db.lastUser)
  {
    UsersMade(db);
    UsersThrough(db, days, 0, 4);
  }

  lemma UserAfterFive(db: Db, days: seq<int>, username: Value, password: Value)
    requires 6 !in db.versions && (Users in db.tables ==> db.tables[Users].rows == map[])
    requires Reads(db, Admin, 1, Username, username) && Reads(db, Admin, 1, PasswordHash, password)
    ensures OneUser(Run(Upto(5, days), db), db.lastUser + 1, username, password)
  {
    NoUsersAtFour(db, days);
    AdminUntilFive(db, days, Username);
    AdminUntilFive(db, days, PasswordHash);
    SixAtFour(db, days);
    UptoStep(5, days, db);
    UserInPhaseFive(Run(Upto(4, days), db), days, db.lastUser, username, password);
  }

  /** Where there are no users and version 6 is not recorded, the admin becomes the one user, with name, password and role. */
  lemma AdminBecomesUser(db: Db, days: seq<int>)
    requires 6 !in db.versions && (Users in db.tables ==> db.tables[Users].rows == map[])
    requires Admin in db.tables && 1 in db.tables[Admin].rows
    ensures var admin := db.tables[Admin].rows[1];
            OneUser(Migrated(db, days), db.lastUser + 1, Cell(admin, Username), Cell(admin, PasswordHash))
  {
    var admin := db.tables[Admin].rows[1];
    var username, password, id := Cell(admin, Username), Cell(admin, PasswordHash), db.lastUser + 1;
    UserAfterFive(db, days, username, password);
    UsersLast(db, days);
    SameUser(Run(Upto(5, days), db), Migrated(db, days), id, username, password);
  }

  lemma UsersLast(db: Db, days: seq<int>)
    requires Users in Run(Upto(5, days), db).tables
    ensures Users in Migrated(db, days).tables && Migrated(db, days).tables[Users] == Run(Upto(5, days), db).tables[Users]
  {
    if Stuck(db) {
      UsersThrough(db, days, 5, 9);
    } else {
      UsersThrough(db, days, 5, LAST);
      UptoThenFrom(LAST, days);
      assert Upto(LAST, days) + [] == Upto(LAST, days);
    }
  }

  /** Users that are there keep the value of every column. */
  lemma UserKept(db: Db, days: seq<int>, id: int, c: Column)
    requires Users in db.tables && id in db.tables[Users].rows && c in db.tables[Users].cols
    ensures Stands(Migrated(db, days), Users, id, c, true, Cell(db.tables[Users].rows[id], c))
  {
    FirstPhaseLeaves(Users, c, true);
    RunLeaves(PHASE0, db, Users, id, c, true, Cell(db.tables[Users].rows[id], c));
    Lasts(db, days, 0, Users, id, c, true, Cell(db.tables[Users].rows[id], c));
  }

  // ---- The third phase by itself ----

  /** Column `d` has what was in it, else what was in `c`, in each row of table `t`; `default` where there was neither. */
  ghost predicate Moved(db: Db, after: Db, t: TableName, c: Column, d: Column, default: Value) {
    t in db.tables ==> forall id :: id in db.tables[t].rows ==>
      Stands(after, t, id, d, true, if d in db.tables[t].cols then Cell(db.tables[t].rows[id], d)
                                    else if c in db.tables[t].cols then Cell(db.tables[t].rows[id], c) else default)
  }

  /** All secrets are in their plain columns. */
  ghost predicate NowPlain(db: Db, after: Db) {
    && Moved(db, after, Subscriptions, CredentialsEncrypted, CredentialsJson, Int(0))
    && Moved(db, after, Subscriptions, ProxyUrlEncrypted, ProxyUrl, Null)
    && (HasColumn(db, Admin, TotpSecretEnc) || HasColumn(db, Admin, TotpSecret) ==>
          Moved(db, after, Admin, TotpSecretEnc, TotpSecret, Null))
  }

  lemma PairMoved(db: Db, days: seq<int>, c: Column, d: Column, default: Value)
    requires PlainPair(c, d, default) && 4 !in db.versions && Subscriptions in db.tables
    ensures Moved(db, Run(Phase(3, days), db), Subscriptions, c, d, default)
  {
    var t := db.tables[Subscriptions];
    forall id | id in t.rows
      ensures Stands(Run(Phase(3, days), db), Subscriptions, id, d, true,
                     if d in t.cols then Cell(t.rows[id], d) else if c in t.cols then Cell(t.rows[id], c) else default)
    {
      if d in t.cols {
        PhaseLeaves(3, days, Subscriptions, d, true);
        RunLeaves(Phase(3, days), db, Subscriptions, id, d, true, Cell(t.rows[id], d));
      } else {
        ThirdPhase(db, days, id, c, d, default, c in t.cols, Cell(t.rows[id], c), Cell(t.rows[id], d));
      }
    }
  }

  lemma TotpMoved(db: Db, days: seq<int>)
    requires 4 !in db.versions && (HasColumn(db, Admin, TotpSecretEnc) || HasColumn(db, Admin, TotpSecret))
    ensures Moved(db, Run(Phase(3, days), db), Admin, TotpSecretEnc, TotpSecret, Null)
  {
    var t := db.tables[Admin];
    forall id | id in t.rows
      ensures Stands(Run(Phase(3, days), db), Admin, id, TotpSecret, true,
                     if TotpSecret in t.cols then Cell(t.rows[id], TotpSecret) else Cell(t.rows[id], TotpSecretEnc))
    {
      if TotpSecret in t.cols {
        PhaseLeaves(3, days, Admin, TotpSecret, true);
        RunLeaves(Phase(3, days), db, Admin, id, TotpSecret, true, Cell(t.rows[id], TotpSecret));
      } else {
        TotpInPhaseThree(db, days, id, Cell(t.rows[id], TotpSecretEnc), Cell(t.rows[id], TotpSecret));
      }
    }
  }

  /** What the third phase does to secrets where version 4 is not recorded. */
  lemma PhaseThreeMakesPlain(db: Db, days: seq<int>)
    ensures 4 !in db.versions ==> NowPlain(db, Run(Phase(3, days), db))
  {
    if 4 !in db.versions {
      if Subscriptions in db.tables {
        PairMoved(db, days, CredentialsEncrypted, CredentialsJson, Int(0));
        PairMoved(db, days, ProxyUrlEncrypted, ProxyUrl, Null);
      }
      if HasColumn(db, Admin, TotpSecretEnc) || HasColumn(db, Admin, TotpSecret) { TotpMoved(db, days); }
    }
  }

  // ---- Request logs ----

  /** Every column of a request log but account_id keeps its value, listed or not. */
  lemma LogColumnKept(db: Db, days: seq<int>, day: int, id: int, c: Column)
    requires RequestLog(day) in db.tables && id in db.tables[RequestLog(day)].rows && c in db.tables[RequestLog(day)].cols && c != AccountId
    ensures Stands(Migrated(db, days), RequestLog(day), id, c, true, Cell(db.tables[RequestLog(day)].rows[id], c))
  {
    FirstPhaseLeaves(RequestLog(day), c, true);
    RunLeaves(PHASE0, db, RequestLog(day), id, c, true, Cell(db.tables[RequestLog(day)].rows[id], c));
    Lasts(db, days, 0, RequestLog(day), id, c, true, Cell(db.tables[RequestLog(day)].rows[id], c));
  }

  lemma {:induction false} LogsRenamed(days: seq<int>, db: Db, day: int, id: int, v: Value, w: Value)
    requires day in days && 10 !in db.versions
    requires Stands(db, RequestLog(day), id, AccountId, true, v) && Stands(db, RequestLog(day), id, SubscriptionId, false, w)
    ensures Stands(Run(LogColumns(days), db), RequestLog(day), id, SubscriptionId, true, v)
  {
    var st, rest := RenameLogColumn(days[0]), LogColumns(days[1..]);
    assert LogColumns(days) == [st] + rest;
    RunAppend([st], rest, db);
    RunOne(st, db);
    if days[0] == day {
      LogColumnsAre(days[1..]);
      RunLeaves(rest, Apply(st, db), RequestLog(day), id, SubscriptionId, true, v);
    } else {
      StatementLeaves(st, db, RequestLog(day), id, AccountId, true, v);
      StatementLeaves(st, db, RequestLog(day), id, SubscriptionId, false, w);
      LogsRenamed(days[1..], Apply(st, db), day, id, v, w);
    }
  }

  /** The tenth phase is its rebuild, its renames and its record. */
  lemma TenthPhase(db: Db, days: seq<int>)
    ensures Run(Phase(10, days), db) == Apply(Record(10), Run(LogColumns(days), Apply(RebuildKeysV10, db)))
  {
    var rest := LogColumns(days) + [Record(10)];
    assert Phase(10, days) == [RebuildKeysV10] + rest;
    RunAppend([RebuildKeysV10], rest, db);
    RunOne(RebuildKeysV10, db);
    var mid := Apply(RebuildKeysV10, db);
    RunAppend(LogColumns(days), [Record(10)], mid);
    RunOne(Record(10), Run(LogColumns(days), mid));
  }

  lemma LogsInPhaseTen(db: Db, days: seq<int>, day: int, id: int, v: Value, w: Value)
    requires day in days && 10 !in db.versions
    requires Stands(db, RequestLog(day), id, AccountId, true, v) && Stands(db, RequestLog(day), id, SubscriptionId, false, w)
    ensures Stands(Run(Phase(10, days), db), RequestLog(day), id, SubscriptionId, true, v)
  {
    StatementLeaves(RebuildKeysV10, db, RequestLog(day), id, AccountId, true, v);
    StatementLeaves(RebuildKeysV10, db, RequestLog(day), id, SubscriptionId, false, w);
    TenthPhase(db, days);
    RebuildLeavesVersion(db);
    LogsRenamed(days, Apply(RebuildKeysV10, db), day, id, v, w);
  }

  lemma RebuildLeavesVersion(db: Db)
    ensures Apply(RebuildKeysV10, db).versions == db.versions
  {
  }

  lemma LogUntilTen(db: Db, days: seq<int>, day: int, id: int, c: Column)
    requires RequestLog(day) in db.tables && id in db.tables[RequestLog(day)].rows
    ensures var t := db.tables[RequestLog(day)];
            Stands(Run(Upto(9, days), db), RequestLog(day), id, c, c in t.cols, Cell(t.rows[id], c))
  {
    var there, v := c in db.tables[RequestLog(day)].cols, Cell(db.tables[RequestLog(day)].rows[id], c);
    UptoLeavesLogs(9, days, day, c, there);
    RunLeaves(Upto(9, days), db, RequestLog(day), id, c, there, v);
  }

  lemma ThirdPhaseLeavesLogs(days: seq<int>, day: int, c: Column, there: bool)
    ensures AllLeave(Phase(3, days), RequestLog(day), c, there)
  {
  }

  lemma SmallPhaseLeavesLogs(p: nat, days: seq<int>, day: int, c: Column, there: bool)
    requires p in {1, 2, 4, 5, 6, 7, 8}
    ensures AllLeave(Phase(p, days), RequestLog(day), c, there)
  {
  }

  lemma NinthPhaseLeavesLogs(days: seq<int>, day: int, c: Column, there: bool)
    ensures AllLeave(Phase(9, days), RequestLog(day), c, there)
  {
  }

  lemma {:induction false} UptoLeavesLogs(p: nat, days: seq<int>, day: int, c: Column, there: bool)
    requires p <= 9
    ensures AllLeave(Upto(p, days), RequestLog(day), c, there)
  {
    if p == 0 {
      FirstPhaseLeaves(RequestLog(day), c, there);
    } else {
      UptoLeavesLogs(p - 1, days, day, c, there);
      if p == 3 { ThirdPhaseLeavesLogs(days, day, c, there); }
      else if p == 9 { NinthPhaseLeavesLogs(days, day, c, there); }
      else { SmallPhaseLeavesLogs(p, days, day, c, there); }
      LeaveAppend(Upto(p - 1, days), Phase(p, days), RequestLog(day), c, there);
    }
  }

  lemma LeaveAppend(a: seq<Statement>, b: seq<Statement>, t: TableName, c: Column, there: bool)
    requires AllLeave(a, t, c, there) && AllLeave(b, t, c, there)
    ensures AllLeave(a + b, t, c, there)
  {
  }

  lemma {:induction false} TenUntilTen(p: nat, days: seq<int>)
    requires p <= 9
    ensures forall i :: 0 <= i < |Upto(p, days)| ==> !Records(Upto(p, days)[i], 10)
  {
    if p > 0 {
      TenUntilTen(p - 1, days);
      assert forall i :: 0 <= i < |Phase(p, days)| ==> !Records(Phase(p, days)[i], 10);
    }
  }

  /** The rows of a listed request log with accounts only come to belong to the subscriptions of the same ids. */
  lemma LogAccountIsSubscription(db: Db, days: seq<int>, day: int, id: int)
    requires day in days && 10 !in db.versions && !Stuck(db)
    requires HasColumn(db, RequestLog(day), AccountId) && !HasColumn(db, RequestLog(day), SubscriptionId)
    requires id in db.tables[RequestLog(day)].rows
    ensures Stands(Migrated(db, days), RequestLog(day), id, SubscriptionId, true, Cell(db.tables[RequestLog(day)].rows[id], AccountId))
  {
    var row := db.tables[RequestLog(day)].rows[id];
    LogUntilTen(db, days, day, id, AccountId);
    LogUntilTen(db, days, day, id, SubscriptionId);
    TenUntilTen(9, days);
    RunVersions(Upto(9, days), db, 10);
    UptoStep(10, days, db);
    LogsInPhaseTen(Run(Upto(9, days), db), days, day, id, Cell(row, AccountId), Cell(row, SubscriptionId));
    Lasts(db, days, 10, RequestLog(day), id, SubscriptionId, true, Cell(row, AccountId));
  }

  /** Why a log table is passed over. */
  ghost predicate Passed(db: Db, days: seq<int>, day: int) {
    day !in days || 10 in db.versions || HasColumn(db, RequestLog(day), SubscriptionId)
  }

  lemma {:induction false} LogsPassed(days: seq<int>, db: Db, day: int, id: int, v: Value)
    requires Passed(db, days, day) && Stands(db, RequestLog(day), id, AccountId, true, v)
    ensures Stands(Run(LogColumns(days), db), RequestLog(day), id, AccountId, true, v)
  {
    if days != [] {
      var st, rest := RenameLogColumn(days[0]), LogColumns(days[1..]);
      assert LogColumns(days) == [st] + rest;
      RunAppend([st], rest, db);
      RunOne(st, db);
      if days[0] == day {
        SettledIsIdentity(st, db);
      } else {
        StatementLeaves(st, db, RequestLog(day), id, AccountId, true, v);
      }
      LogsPassed(days[1..], Apply(st, db), day, id, v);
    }
  }

  lemma LogsPassedInPhaseTen(db: Db, days: seq<int>, day: int, id: int, v: Value)
    requires Passed(db, days, day) && Stands(db, RequestLog(day), id, AccountId, true, v)
    ensures Stands(Run(Phase(10, days), db), RequestLog(day), id, AccountId, true, v)
  {
    StatementLeaves(RebuildKeysV10, db, RequestLog(day), id, AccountId, true, v);
    TenthPhase(db, days);
    LogsPassed(days, Apply(RebuildKeysV10, db), day, id, v);
  }

  /** Where Migrate fails, version 10 is recorded, the table is not listed or has both columns, account_id stays as it is. */
  lemma LogAccountKept(db: Db, days: seq<int>, day: int, id: int)
    requires Passed(db, days, day) || Stuck(db)
    requires HasColumn(db, RequestLog(day), AccountId) && id in db.tables[RequestLog(day)].rows
    ensures Stands(Migrated(db, days), RequestLog(day), id, AccountId, true, Cell(db.tables[RequestLog(day)].rows[id], AccountId))
  {
    var row := db.tables[RequestLog(day)].rows[id];
    LogUntilTen(db, days, day, id, AccountId);
    LogUntilTen(db, days, day, id, SubscriptionId);
    TenUntilTen(9, days);
    RunVersions(Upto(9, days), db, 10);
    if !Stuck(db) {
      UptoStep(10, days, db);
      LogsPassedInPhaseTen(Run(Upto(9, days), db), days, day, id, Cell(row, AccountId));
      Lasts(db, days, 10, RequestLog(day), id, AccountId, true, Cell(row, AccountId));
    }
  }

  // ---- What is gone ----

  /** Subscriptions is there without column `c`. */
  predicate Lacks(db: Db, c: Column) { Subscriptions in db.tables && c !in db.tables[Subscriptions].cols }

  predicate BringsNo(st: Statement, c: Column) {
    match st
    case DropEmptySubscriptions => false
    case AddColumn(_, t, d, _) => t != Subscriptions || d != c
    case RenameColumn(_, t, _, to) => t != Subscriptions || to != c
    case _ => true
  }

  ghost predicate AllBringNo(sts: seq<Statement>, c: Column) { forall i :: 0 <= i < |sts| ==> BringsNo(sts[i], c) }

  lemma StatementBringsNo(st: Statement, db: Db, c: Column)
    requires BringsNo(st, c) && Lacks(db, c)
    ensures Lacks(Apply(st, db), c)
  {
  }

  lemma {:induction false} RunBringsNo(sts: seq<Statement>, db: Db, c: Column)
    requires Lacks(db, c) && AllBringNo(sts, c)
    ensures Lacks(Run(sts, db), c)
  {
    if sts != [] {
      assert BringsNo(sts[0], c);
      StatementBringsNo(sts[0], db, c);
      assert forall i :: 0 <= i < |sts[1..]| ==> sts[1..][i] == sts[i + 1];
      RunBringsNo(sts[1..], Apply(sts[0], db), c);
    }
  }

  lemma PhaseBringsNo(p: nat, days: seq<int>, c: Column)
    requires p >= 4 && c in {CredentialKeyId, CreatedByUserId}
    ensures AllBringNo(Phase(p, days), c)
  {
    LogColumnsAre(days);
  }

  lemma {:induction false} MoreBringNo(p: nat, q: nat, days: seq<int>, c: Column) returns (more: seq<Statement>)
    requires 3 <= p <= q && c in {CredentialKeyId, CreatedByUserId}
    ensures Upto(q, days) == Upto(p, days) + more && AllBringNo(more, c)
    decreases q
  {
    if p == q {
      more := [];
    } else {
      var before := MoreBringNo(p, q - 1, days, c);
      more := OneMoreBringNo(p, q, days, before, c);
    }
  }

  lemma OneMoreBringNo(p: nat, q: nat, days: seq<int>, before: seq<Statement>, c: Column) returns (more: seq<Statement>)
    requires 3 <= p < q && c in {CredentialKeyId, CreatedByUserId} && AllBringNo(before, c) && Upto(q - 1, days) == Upto(p, days) + before
    ensures Upto(q, days) == Upto(p, days) + more && AllBringNo(more, c)
  {
    var phase := Phase(q, days);
    PhaseBringsNo(q, days, c);
    Regroup(Upto(p, days), before, phase);
    more := BringNoAppend(before, phase, c);
  }

  lemma BringNoAppend(a: seq<Statement>, b: seq<Statement>, c: Column) returns (all: seq<Statement>)
    requires AllBringNo(a, c) && AllBringNo(b, c)
    ensures all == a + b && AllBringNo(all, c)
  {
    all := a + b;
  }

  lemma LacksThrough(db: Db, days: seq<int>, p: nat, q: nat, c: Column)
    requires 3 <= p <= q && c in {CredentialKeyId, CreatedByUserId} && Lacks(Run(Upto(p, days), db), c)
    ensures Lacks(Run(Upto(q, days), db), c)
  {
    var more := MoreBringNo(p, q, days, c);
    RunAppend(Upto(p, days), more, db);
    RunBringsNo(more, Run(Upto(p, days), db), c);
  }

  lemma LacksInTheEnd(db: Db, days: seq<int>, p: nat, c: Column)
    requires 3 <= p <= 9 && c in {CredentialKeyId, CreatedByUserId} && Lacks(Run(Upto(p, days), db), c)
    ensures Lacks(Migrated(db, days), c)
  {
    if Stuck(db) {
      LacksThrough(db, days, p, 9, c);
    } else {
      LacksThrough(db, days, p, LAST, c);
      UptoThenFrom(LAST, days);
      assert Upto(LAST, days) + [] == Upto(LAST, days);
    }
  }

  /** Subscriptions stays once it is there, other than through the early rename. */
  lemma {:induction false} SubscriptionsStay(sts: seq<Statement>, db: Db)
    requires Subscriptions in db.tables && DropEmptySubscriptions !in sts
    ensures Subscriptions in Run(sts, db).tables
  {
    if sts != [] {
      assert sts[0] in sts;
      assert forall st :: st in sts[1..] ==> st in sts;
      SubscriptionsStay(sts[1..], Apply(sts[0], db));
    }
  }

  lemma KeyIdDropped(db: Db, days: seq<int>)
    requires 4 !in db.versions && Subscriptions in db.tables
    ensures Lacks(Run(Phase(3, days), db), CredentialKeyId)
  {
    var sts := Phase(3, days);
    assert sts == sts[..4] + ([sts[4]] + sts[5..]);
    RunAppend(sts[..4], [sts[4]] + sts[5..], db);
    RunVersions(sts[..4], db, 4);
    SubscriptionsStay(sts[..4], db);
    var mid := Run(sts[..4], db);
    RunAppend([sts[4]], sts[5..], mid);
    RunOne(sts[4], mid);
    RunBringsNo(sts[5..], Apply(sts[4], mid), CredentialKeyId);
  }

  /** Where version 4 is not recorded, credential_key_id is gone afterwards; where version 10 is not, created_by_user_id is. */
  lemma ColumnsDropped(db: Db, days: seq<int>)
    ensures 4 !in db.versions ==> Lacks(Migrated(db, days), CredentialKeyId)
    ensures 10 !in db.versions ==> Lacks(Migrated(db, days), CreatedByUserId)
  {
    if 4 !in db.versions {
      UptoReachesPhase(2, days, db);
      FourUntilThree(db, days);
      UptoStep(3, days, db);
      KeyIdDropped(Run(Upto(2, days), db), days);
      LacksInTheEnd(db, days, 3, CredentialKeyId);
    }
    if 10 !in db.versions {
      UptoReachesPhase(8, days, db);
      TenUntilTen(8, days);
      RunVersions(Upto(8, days), db, 10);
      UptoStep(9, days, db);
      CreatorDropped(Run(Upto(8, days), db), days);
      LacksInTheEnd(db, days, 9, CreatedByUserId);
    }
  }

  lemma CreatorDropped(db: Db, days: seq<int>)
    requires 10 !in db.versions && Subscriptions in db.tables
    ensures Lacks(Run(Phase(9, days), db), CreatedByUserId)
  {
    var drop := DropColumn(Some(10), Subscriptions, CreatedByUserId);
    NinthPhase(db, days);
    var copied := Apply(CopyAccounts, Apply(RenameAccountsV10, db));
    assert AFTER_COPY == [DropAccounts] + [drop];
    RunAppend([DropAccounts], [drop], copied);
    RunOne(DropAccounts, copied);
    RunOne(drop, Apply(DropAccounts, copied));
    CopyKeeps(db);
    DropsCreator(copied);
  }

  lemma CopyKeeps(db: Db)
    requires 10 !in db.versions && Subscriptions in db.tables
    ensures var copied := Apply(CopyAccounts, Apply(RenameAccountsV10, db)); 10 !in copied.versions && Subscriptions in copied.tables
  {
  }

  lemma DropsCreator(db: Db)
    requires 10 !in db.versions && Subscriptions in db.tables
    ensures Lacks(Apply(DropColumn(Some(10), Subscriptions, CreatedByUserId), Apply(DropAccounts, db)), CreatedByUserId)
  {
  }

  predicate MakesNo(st: Statement, t: TableName) { !st.CreateTable? || st.t != t }

  ghost predicate AllMakeNo(sts: seq<Statement>, t: TableName) { forall i :: 0 <= i < |sts| ==> MakesNo(sts[i], t) }

  lemma StatementMakesNo(st: Statement, db: Db, t: TableName)
    requires t in {UsageLogs, Accounts} && MakesNo(st, t) && t !in db.tables
    ensures t !in Apply(st, db).tables
  {
  }

  lemma {:induction false} RunMakesNo(sts: seq<Statement>, db: Db, t: TableName)
    requires t in {UsageLogs, Accounts} && t !in db.tables && AllMakeNo(sts, t)
    ensures t !in Run(sts, db).tables
  {
    if sts != [] {
      assert MakesNo(sts[0], t);
      StatementMakesNo(sts[0], db, t);
      assert forall i :: 0 <= i < |sts[1..]| ==> sts[1..][i] == sts[i + 1];
      RunMakesNo(sts[1..], Apply(sts[0], db), t);
    }
  }

  lemma PhaseMakesNo(p: nat, days: seq<int>, t: TableName)
    requires p >= 1 && t in {UsageLogs, Accounts}
    ensures AllMakeNo(Phase(p, days), t)
  {
    LogColumnsAre(days);
  }

  lemma {:induction false} MoreMakeNo(p: nat, q: nat, days: seq<int>, t: TableName) returns (more: seq<Statement>)
    requires p <= q && t in {UsageLogs, Accounts}
    ensures Upto(q, days) == Upto(p, days) + more && AllMakeNo(more, t)
    decreases q
  {
    if p == q {
      more := [];
    } else {
      var before := MoreMakeNo(p, q - 1, days, t);
      PhaseMakesNo(q, days, t);
      Regroup(Upto(p, days), before, Phase(q, days));
      more := MakeNoAppend(before, Phase(q, days), t);
    }
  }

  lemma MakeNoAppend(a: seq<Statement>, b: seq<Statement>, t: TableName) returns (all: seq<Statement>)
    requires AllMakeNo(a, t) && AllMakeNo(b, t)
    ensures all == a + b && AllMakeNo(all, t)
  {
    all := a + b;
  }

  lemma GoneThrough(db: Db, days: seq<int>, p: nat, q: nat, t: TableName)
    requires p <= q && t in {UsageLogs, Accounts} && t !in Run(Upto(p, days), db).tables
    ensures t !in Run(Upto(q, days), db).tables
  {
    var more := MoreMakeNo(p, q, days, t);
    RunAppend(Upto(p, days), more, db);
    RunMakesNo(more, Run(Upto(p, days), db), t);
  }

  lemma GoneInTheEnd(db: Db, days: seq<int>, p: nat, t: TableName)
    requires p <= 9 && t in {UsageLogs, Accounts} && t !in Run(Upto(p, days), db).tables
    ensures t !in Migrated(db, days).tables
  {
    if Stuck(db) {
      GoneThrough(db, days, p, 9, t);
    } else {
      GoneThrough(db, days, p, LAST, t);
      UptoThenFrom(LAST, days);
      assert Upto(LAST, days) + [] == Upto(LAST, days);
    }
  }

  lemma {:induction false} SevenUntilSeven(p: nat, days: seq<int>)
    requires p <= 6
    ensures forall i :: 0 <= i < |Upto(p, days)| ==> !Records(Upto(p, days)[i], 7)
  {
    if p > 0 {
      SevenUntilSeven(p - 1, days);
      assert forall i :: 0 <= i < |Phase(p, days)| ==> !Records(Phase(p, days)[i], 7);
    }
  }

  lemma LogsDroppedAtSeven(db: Db, days: seq<int>)
    requires 7 !in db.versions
    ensures UsageLogs !in Run(Phase(7, days), db).tables
  {
    assert Phase(7, days) == [DropUsageLogs] + [Record(7)];
    RunAppend([DropUsageLogs], [Record(7)], db);
    RunOne(DropUsageLogs, db);
    RunOne(Record(7), Apply(DropUsageLogs, db));
  }

  lemma AccountsDroppedAtNine(db: Db, days: seq<int>)
    requires 10 !in db.versions && Subscriptions in db.tables
    ensures Accounts !in Run(Phase(9, days), db).tables
  {
    NinthPhase(db, days);
    CopyKeeps(db);
    var copied, drop := Apply(CopyAccounts, Apply(RenameAccountsV10, db)), DropColumn(Some(10), Subscriptions, CreatedByUserId);
    assert AFTER_COPY == [DropAccounts] + [drop];
    RunAppend([DropAccounts], [drop], copied);
    RunOne(DropAccounts, copied);
    RunMakesNo([drop], Apply(DropAccounts, copied), Accounts);
  }

  /** usage_logs is gone where version 7 was not recorded, and accounts where version 10 was not. */
  lemma TablesDropped(db: Db, days: seq<int>)
    ensures 7 !in db.versions ==> UsageLogs !in Migrated(db, days).tables
    ensures 10 !in db.versions ==> Accounts !in Migrated(db, days).tables
  {
    if 7 !in db.versions {
      SevenUntilSeven(6, days);
      RunVersions(Upto(6, days), db, 7);
      UptoStep(7, days, db);
      LogsDroppedAtSeven(Run(Upto(6, days), db), days);
      GoneInTheEnd(db, days, 7, UsageLogs);
    }
    if 10 !in db.versions {
      UptoReachesPhase(8, days, db);
      TenUntilTen(8, days);
      RunVersions(Upto(8, days), db, 10);
      UptoStep(9, days, db);
      AccountsDroppedAtNine(Run(Upto(8, days), db), days);
      GoneInTheEnd(db, days, 9, Accounts);
    }
  }
}

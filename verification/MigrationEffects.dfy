/** What Migrate does to API keys and to queue timeouts. */
module MigrationEffects {
  import opened Prelude
  import opened Migration
  import opened MigrationRestart

  // ---- Versions ----

  predicate Records(st: Statement, v: int) { (st.Record? && st.v == v) || (st.RebuildKeysV5? && v == 5) }

  lemma {:induction false} RunVersions(sts: seq<Statement>, db: Db, v: int)
    requires forall i :: 0 <= i < |sts| ==> !Records(sts[i], v)
    ensures v in Run(sts, db).versions <==> v in db.versions
  {
    if sts != [] {
      assert !Records(sts[0], v);
      assert forall i :: 0 <= i < |sts[1..]| ==> sts[1..][i] == sts[i + 1];
      RunVersions(sts[1..], Apply(sts[0], db), v);
    }
  }

  // ---- API keys ----

  /** The statements that leave an existing api_keys table as it is. */
  predicate LeavesKeys(st: Statement) {
    match st
    case AddColumn(_, t, _, _) => t != ApiKeys
    case RenameColumn(_, t, _, _) => t != ApiKeys
    case DropColumn(_, t, _) => t != ApiKeys
    case RebuildKeysV5 => false
    case RebuildKeysV10 => false
    case _ => true
  }

  lemma StatementLeavesKeys(st: Statement, db: Db)
    requires LeavesKeys(st) && ApiKeys in db.tables
    ensures ApiKeys in Apply(st, db).tables && Apply(st, db).tables[ApiKeys] == db.tables[ApiKeys]
  {
  }

  lemma {:induction false} RunLeavesKeys(sts: seq<Statement>, db: Db)
    requires ApiKeys in db.tables && forall i :: 0 <= i < |sts| ==> LeavesKeys(sts[i])
    ensures ApiKeys in Run(sts, db).tables && Run(sts, db).tables[ApiKeys] == db.tables[ApiKeys]
  {
    if sts != [] {
      StatementLeavesKeys(sts[0], db);
      assert forall i :: 0 <= i < |sts[1..]| ==> sts[1..][i] == sts[i + 1];
      RunLeavesKeys(sts[1..], Apply(sts[0], db));
    }
  }

  /** A table after rebuildAPIKeysWithoutAccountUnique (unless `five` is recorded), and then after rebuildAPIKeysSubscriptionID. */
  function KeysV5(table: Table, five: bool): Table {
    if five || AccountId !in table.cols then table
    else Rebuilt(table, AccountId, COPIED_KEY_COLUMNS + (if KeyPlaintext in table.cols then {KeyPlaintext} else {}))
  }

  function WithPlaintext(table: Table): Table {
    if KeyPlaintext in table.cols then table else Added(table, KeyPlaintext, Null)
  }

  function KeysV10(table: Table, ten: bool): Table {
    if ten || AccountId !in table.cols then table else Rebuilt(table, AccountId, COPIED_KEY_COLUMNS + {KeyPlaintext})
  }

  function KeysV11(table: Table, eleven: bool): Table {
    if eleven || UserId in table.cols then table else Added(table, UserId, Null)
  }

  function KeysAfter(table: Table, versions: set<int>): Table {
    KeysV11(KeysV10(WithPlaintext(KeysV5(table, 5 in versions)), 10 in versions), 11 in versions)
  }

  lemma UptoStep(p: nat, days: seq<int>, db: Db)
    requires p >= 1
    ensures Run(Upto(p, days), db) == Run(Phase(p, days), Run(Upto(p - 1, days), db))
  {
    RunAppend(Upto(p - 1, days), Phase(p, days), db);
  }

  lemma {:induction false} UptoReachesPhase(p: nat, days: seq<int>, db: Db)
    requires p <= LAST
    ensures Reached(Run(Upto(p, days), db), p + 1)
  {
    if p == 0 {
      FirstPhaseReaches(db);
    } else {
      UptoReachesPhase(p - 1, days, db);
      PhaseReaches(Run(Upto(p - 1, days), db), p, days);
      UptoStep(p, days, db);
    }
  }

  lemma PhaseLeavesKeys(p: nat, days: seq<int>, db: Db, v: int)
    requires ApiKeys in db.tables && p in {1, 2, 3, 5, 7, 8, 9} && v in {5, 10, 11}
    ensures ApiKeys in Run(Phase(p, days), db).tables && Run(Phase(p, days), db).tables[ApiKeys] == db.tables[ApiKeys]
    ensures v in Run(Phase(p, days), db).versions <==> v in db.versions
  {
    RunLeavesKeys(Phase(p, days), db);
    RunVersions(Phase(p, days), db, v);
  }

  /** The state of api_keys and of the versions that matter to it. */
  ghost predicate At(db: Db, table: Table, five: bool, ten: bool, eleven: bool) {
    && ApiKeys in db.tables && db.tables[ApiKeys] == table
    && (5 in db.versions <==> five) && (10 in db.versions <==> ten) && (11 in db.versions <==> eleven)
  }

  lemma PhaseKeepsAt(p: nat, days: seq<int>, db: Db, table: Table, five: bool, ten: bool, eleven: bool)
    requires p in {1, 2, 3, 5, 7, 8, 9} && At(db, table, five, ten, eleven)
    ensures At(Run(Phase(p, days), db), table, five, ten, eleven)
  {
    PhaseLeavesKeys(p, days, db, 5);
    PhaseLeavesKeys(p, days, db, 10);
    PhaseLeavesKeys(p, days, db, 11);
  }

  lemma KeysBeforeV5(db: Db, days: seq<int>)
    requires ApiKeys in db.tables
    ensures At(Run(Upto(3, days), db), db.tables[ApiKeys], 5 in db.versions, 10 in db.versions, 11 in db.versions)
  {
    RunLeavesKeys(PHASE0, db);
    RunVersions(PHASE0, db, 5);
    RunVersions(PHASE0, db, 10);
    RunVersions(PHASE0, db, 11);
    var t, a, b, c := db.tables[ApiKeys], 5 in db.versions, 10 in db.versions, 11 in db.versions;
    UptoStep(1, days, db);
    PhaseKeepsAt(1, days, Run(Upto(0, days), db), t, a, b, c);
    UptoStep(2, days, db);
    PhaseKeepsAt(2, days, Run(Upto(1, days), db), t, a, b, c);
    UptoStep(3, days, db);
    PhaseKeepsAt(3, days, Run(Upto(2, days), db), t, a, b, c);
  }

  lemma V5Step(db: Db, days: seq<int>, table: Table, five: bool, ten: bool, eleven: bool)
    requires At(db, table, five, ten, eleven)
    ensures At(Run(Phase(4, days), db), KeysV5(table, five), true, ten, eleven)
  {
    RunOne(RebuildKeysV5, db);
  }

  lemma PlaintextStep(db: Db, days: seq<int>, table: Table, five: bool, ten: bool, eleven: bool)
    requires At(db, table, five, ten, eleven)
    ensures At(Run(Phase(6, days), db), WithPlaintext(table), five, ten, eleven)
  {
    RunOne(AddColumn(None, ApiKeys, KeyPlaintext, Null), db);
  }

  lemma V10Step(db: Db, days: seq<int>, table: Table, five: bool, ten: bool, eleven: bool)
    requires At(db, table, five, ten, eleven)
    ensures At(Run(Phase(10, days), db), KeysV10(table, ten), five, true, eleven)
  {
    var rest := LogColumns(days) + [Record(10)];
    assert Phase(10, days) == [RebuildKeysV10] + rest;
    RunAppend([RebuildKeysV10], rest, db);
    RunOne(RebuildKeysV10, db);
    var mid := Apply(RebuildKeysV10, db);
    LogColumnsAre(days);
    RunLeavesKeys(rest, mid);
    RunVersions(rest, mid, 5);
    RunVersions(rest, mid, 11);
    RunAppend(LogColumns(days), [Record(10)], mid);
    RunOne(Record(10), Run(LogColumns(days), mid));
  }

  lemma V11Step(db: Db, days: seq<int>, table: Table, five: bool, ten: bool, eleven: bool)
    requires At(db, table, five, ten, eleven)
    ensures At(Run(Phase(11, days), db), KeysV11(table, eleven), five, ten, true)
  {
    var add := AddColumn(Some(11), ApiKeys, UserId, Null);
    assert Phase(11, days) == [add] + [Record(11)];
    RunAppend([add], [Record(11)], db);
    RunOne(add, db);
    RunOne(Record(11), Apply(add, db));
  }

  lemma KeysThroughV5(db: Db, days: seq<int>)
    requires ApiKeys in db.tables
    ensures At(Run(Upto(4, days), db), KeysV5(db.tables[ApiKeys], 5 in db.versions), true, 10 in db.versions, 11 in db.versions)
  {
    KeysBeforeV5(db, days);
    UptoStep(4, days, db);
    V5Step(Run(Upto(3, days), db), days, db.tables[ApiKeys], 5 in db.versions, 10 in db.versions, 11 in db.versions);
  }

  lemma KeysThroughV10(db: Db, days: seq<int>)
    requires ApiKeys in db.tables
    ensures At(Run(Upto(10, days), db), KeysV10(WithPlaintext(KeysV5(db.tables[ApiKeys], 5 in db.versions)), 10 in db.versions), true, true,
               11 in db.versions)
  {
    var five, ten, eleven := 5 in db.versions, 10 in db.versions, 11 in db.versions;
    var t1 := KeysV5(db.tables[ApiKeys], five);
    KeysThroughV5(db, days);
    KeysToV10(db, days, t1, ten, eleven);
    UptoStep(10, days, db);
    V10Step(Run(Upto(9, days), db), days, WithPlaintext(t1), true, ten, eleven);
  }

  /** api_keys after the whole program. */
  lemma KeysAreKeysAfter(db: Db, days: seq<int>)
    requires ApiKeys in db.tables
    ensures ApiKeys in Run(Program(days), db).tables
    ensures Run(Program(days), db).tables[ApiKeys] == KeysAfter(db.tables[ApiKeys], db.versions)
  {
    KeysThroughV10(db, days);
    UptoStep(11, days, db);
    V11Step(Run(Upto(10, days), db), days, KeysV10(WithPlaintext(KeysV5(db.tables[ApiKeys], 5 in db.versions)), 10 in db.versions), true, true,
            11 in db.versions);
    UptoThenFrom(11, days);
    assert From(12, days) == [] && Upto(11, days) + [] == Upto(11, days);
  }

  lemma KeysToV10(db: Db, days: seq<int>, table: Table, ten: bool, eleven: bool)
    requires At(Run(Upto(4, days), db), table, true, ten, eleven)
    ensures At(Run(Upto(9, days), db), WithPlaintext(table), true, ten, eleven)
  {
    UptoStep(5, days, db);
    PhaseKeepsAt(5, days, Run(Upto(4, days), db), table, true, ten, eleven);
    UptoStep(6, days, db);
    PlaintextStep(Run(Upto(5, days), db), days, table, true, ten, eleven);
    UptoStep(7, days, db);
    PhaseKeepsAt(7, days, Run(Upto(6, days), db), WithPlaintext(table), true, ten, eleven);
    UptoStep(8, days, db);
    PhaseKeepsAt(8, days, Run(Upto(7, days), db), WithPlaintext(table), true, ten, eleven);
    UptoStep(9, days, db);
    PhaseKeepsAt(9, days, Run(Upto(8, days), db), WithPlaintext(table), true, ten, eleven);
  }

  /** Whether one of the two rebuilds runs. */
  predicate Rebuilds(db: Db) { HasColumn(db, ApiKeys, AccountId) && (5 !in db.versions || 10 !in db.versions) }

  /** A key's row carried over: its hash and other copied columns, its plaintext if there was one, its subscription from `source`. */
  ghost predicate Carried(before: Row, after: Row, plaintext: bool, source: Column) {
    && (forall c :: c in COPIED_KEY_COLUMNS ==> Cell(after, c) == Cell(before, c))
    && Cell(after, KeyPlaintext) == (if plaintext then Cell(before, KeyPlaintext) else Null)
    && Cell(after, SubscriptionId) == Cell(before, source)
  }

  /** Where Migrate fails, no rebuild has run: the keys have got no more than the plaintext column. */
  lemma StuckKeys(db: Db, days: seq<int>)
    requires Stuck(db)
    ensures ApiKeys in Migrated(db, days).tables && Migrated(db, days).tables[ApiKeys] == WithPlaintext(db.tables[ApiKeys])
  {
    KeysThroughV5(db, days);
    KeysToV10(db, days, db.tables[ApiKeys], false, 11 in db.versions);
  }

  /**
   Every API key keeps its id, hash and other copied columns, also where Migrate fails. Its subscription is
   its old account where a rebuild ran, else unchanged. Its user is lost where a rebuild ran, and only there.
   */
  lemma KeysSurvive(db: Db, days: seq<int>, id: int)
    requires ApiKeys in db.tables && id in db.tables[ApiKeys].rows
    ensures ApiKeys in Migrated(db, days).tables
    ensures Migrated(db, days).tables[ApiKeys].rows.Keys == db.tables[ApiKeys].rows.Keys
    ensures var before, after := db.tables[ApiKeys].rows[id], Migrated(db, days).tables[ApiKeys].rows[id];
            && Carried(before, after, HasColumn(db, ApiKeys, KeyPlaintext), if Rebuilds(db) then AccountId else SubscriptionId)
            && (Rebuilds(db) ==> Cell(after, UserId) == Null)
            && (!Rebuilds(db) && HasColumn(db, ApiKeys, UserId) ==> Cell(after, UserId) == Cell(before, UserId))
  {
    if Stuck(db) {
      StuckKeys(db, days);
      PlaintextCarries(db.tables[ApiKeys], id);
    } else {
      KeysAreKeysAfter(db, days);
      KeyRowAfter(db.tables[ApiKeys], db.versions, id);
    }
  }

  /** A key where a rebuild runs: its subscription is its account, and it has no user. */
  lemma RebuiltKey(db: Db, days: seq<int>, id: int)
    requires Rebuilds(db) && id in db.tables[ApiKeys].rows
    ensures ApiKeys in Migrated(db, days).tables && id in Migrated(db, days).tables[ApiKeys].rows
    ensures var after := Migrated(db, days).tables[ApiKeys].rows[id];
            Cell(after, SubscriptionId) == Cell(db.tables[ApiKeys].rows[id], AccountId) && Cell(after, UserId) == Null
  {
    KeysSurvive(db, days, id);
  }

  /** A key of account 3 and user 7, with all columns a rebuild copies and values where they must not be NULL. */
  const KEY_ROW: Row := map[AccountId := Int(3), UserId := Int(7), Name := Int(1), KeyHash := Int(2), KeyPrefix := Int(3),
                            Enabled := Int(1), CreatedAt := Int(4)]

  /** A legacy api_keys table that also has user_id, with that key. */
  const KEY_WITH_USER := Db(map[ApiKeys := Table({AccountId, UserId} + COPIED_KEY_COLUMNS, map[1 := KEY_ROW])], {}, 7)

  /** That key comes to belong to subscription 3 and to nobody. */
  lemma RebuildLosesUser(days: seq<int>)
    ensures ApiKeys in Migrated(KEY_WITH_USER, days).tables && 1 in Migrated(KEY_WITH_USER, days).tables[ApiKeys].rows
    ensures var after := Migrated(KEY_WITH_USER, days).tables[ApiKeys].rows[1];
            Cell(after, SubscriptionId) == Int(3) && Cell(after, UserId) == Null
  {
    RebuiltKey(KEY_WITH_USER, days, 1);
  }

  /** A table a rebuild would take users from. */
  predicate Mixed(db: Db) { Rebuilds(db) && HasColumn(db, ApiKeys, UserId) }

  /** The statements that cannot bring account_id and user_id together. */
  predicate KeepsApart(st: Statement) {
    match st
    case CreateTable(t, cols) => t == ApiKeys ==> AccountId !in cols
    case AddColumn(_, t, c, _) => t == ApiKeys ==> c == KeyPlaintext
    case RenameColumn(_, t, _, _) => t != ApiKeys
    case DropColumn(_, t, _) => t != ApiKeys
    case _ => true
  }

  lemma StatementKeepsApart(st: Statement, db: Db)
    requires KeepsApart(st) && !Mixed(db)
    ensures !Mixed(Apply(st, db))
  {
  }

  lemma {:induction false} RunKeepsApart(sts: seq<Statement>, db: Db)
    requires !Mixed(db) && forall i :: 0 <= i < |sts| ==> KeepsApart(sts[i])
    ensures !Mixed(Run(sts, db))
  {
    if sts != [] {
      StatementKeepsApart(sts[0], db);
      assert forall i :: 0 <= i < |sts[1..]| ==> sts[1..][i] == sts[i + 1];
      RunKeepsApart(sts[1..], Apply(sts[0], db));
    }
  }

  lemma PhaseKeepsApart(p: nat, days: seq<int>)
    requires p <= 10
    ensures forall i :: 0 <= i < |Phase(p, days)| ==> KeepsApart(Phase(p, days)[i])
  {
    LogColumnsAre(days);
  }

  lemma {:induction false} UptoKeepsApart(p: nat, days: seq<int>)
    requires p <= 10
    ensures forall i :: 0 <= i < |Upto(p, days)| ==> KeepsApart(Upto(p, days)[i])
  {
    if p > 0 {
      UptoKeepsApart(p - 1, days);
      PhaseKeepsApart(p, days);
    }
  }

  lemma {:induction false} VersionsStay(sts: seq<Statement>, db: Db)
    ensures db.versions <= Run(sts, db).versions
  {
    if sts != [] {
      VersionsStay(sts[1..], Apply(sts[0], db));
    }
  }

  /** Later phases come after the earlier ones. */
  lemma {:induction false} UptoExtends(p: nat, q: nat, days: seq<int>) returns (more: seq<Statement>)
    requires p <= q
    ensures Upto(q, days) == Upto(p, days) + more
    decreases q
  {
    if p == q {
      more := [];
    } else {
      var before := UptoExtends(p, q - 1, days);
      Regroup(Upto(p, days), before, Phase(q, days));
      more := before + Phase(q, days);
    }
  }

  /** What phase `p` has recorded is recorded after phase `q`. */
  lemma RecordedStays(db: Db, days: seq<int>, p: nat, q: nat, v: int)
    requires p <= q && v in Run(Upto(p, days), db).versions
    ensures v in Run(Upto(q, days), db).versions
  {
    var more := UptoExtends(p, q, days);
    RunAppend(Upto(p, days), more, db);
    VersionsStay(more, Run(Upto(p, days), db));
  }

  /** What phase `p` records. */
  lemma RecordedBy(db: Db, days: seq<int>, p: nat, v: int)
    requires p >= 1 && v in Run(Phase(p, days), Run(Upto(p - 1, days), db)).versions
    ensures v in Run(Upto(p, days), db).versions
  {
    UptoStep(p, days, db);
  }

  lemma BothRecorded(db: Db, days: seq<int>)
    ensures 5 in Run(Upto(10, days), db).versions && 10 in Run(Upto(10, days), db).versions
  {
    VersionFiveRecorded(Run(Upto(3, days), db), days);
    RecordedBy(db, days, 4, 5);
    RecordedStays(db, days, 4, 10, 5);
    VersionTenRecorded(Run(Upto(9, days), db), days);
    RecordedBy(db, days, 10, 10);
  }

  lemma VersionFiveRecorded(db: Db, days: seq<int>)
    ensures 5 in Run(Phase(4, days), db).versions
  {
    RunOne(RebuildKeysV5, db);
  }

  lemma VersionTenRecorded(db: Db, days: seq<int>)
    ensures 10 in Run(Phase(10, days), db).versions
  {
    var before := [RebuildKeysV10] + LogColumns(days);
    RunAppend(before, [Record(10)], db);
    RunOne(Record(10), Run(before, db));
  }

  /** Migrate itself never makes such a table, wherever it is stopped: user_id comes after both rebuilds are recorded. */
  lemma NeverMixed(db: Db, days: seq<int>, i: nat)
    requires !Mixed(db) && i <= |Program(days)|
    ensures !Mixed(Run(Program(days)[..i], db))
  {
    UptoThenFrom(10, days);
    var before, after := Upto(10, days), From(11, days);
    if i <= |before| {
      UptoKeepsApart(10, days);
      assert forall k :: 0 <= k < i ==> Program(days)[..i][k] == before[k];
      RunKeepsApart(Program(days)[..i], db);
    } else {
      assert Program(days)[..i] == before + after[..i - |before|];
      RunAppend(before, after[..i - |before|], db);
      BothRecorded(db, days);
      VersionsStay(after[..i - |before|], Run(before, db));
    }
  }

  lemma RebuiltCarries(table: Table, cols: set<Column>, id: int)
    requires id in table.rows && (cols == COPIED_KEY_COLUMNS || cols == COPIED_KEY_COLUMNS + {KeyPlaintext})
    ensures var t := Rebuilt(table, AccountId, cols);
            && t.rows.Keys == table.rows.Keys && AccountId !in t.cols && UserId !in t.cols
            && (KeyPlaintext in t.cols <==> KeyPlaintext in cols)
            && Carried(table.rows[id], t.rows[id], KeyPlaintext in cols, AccountId)
            && Cell(t.rows[id], UserId) == Null
  {
  }

  lemma AddedCarries(table: Table, c: Column, id: int)
    requires id in table.rows
    ensures var t := Added(table, c, Null);
            && t.rows.Keys == table.rows.Keys && t.cols == table.cols + {c}
            && Cell(t.rows[id], c) == Null && (forall d :: d != c ==> Cell(t.rows[id], d) == Cell(table.rows[id], d))
  {
  }

  lemma PlaintextCarries(table: Table, id: int)
    requires id in table.rows
    ensures var t := WithPlaintext(table);
            && t.rows.Keys == table.rows.Keys && t.cols == table.cols + {KeyPlaintext}
            && Carried(table.rows[id], t.rows[id], KeyPlaintext in table.cols, SubscriptionId)
            && Cell(t.rows[id], AccountId) == Cell(table.rows[id], AccountId) && Cell(t.rows[id], UserId) == Cell(table.rows[id], UserId)
  {
    assert KeyPlaintext !in COPIED_KEY_COLUMNS;
    if KeyPlaintext !in table.cols { AddedCarries(table, KeyPlaintext, id); }
    else { assert table.cols + {KeyPlaintext} == table.cols; }
  }

  /** Up to the second rebuild. */
  lemma KeyRowBeforeV11(table: Table, versions: set<int>, id: int)
    requires id in table.rows
    ensures var t := KeysV10(WithPlaintext(KeysV5(table, 5 in versions)), 10 in versions);
            var rebuilds := AccountId in table.cols && (5 !in versions || 10 !in versions);
            && t.rows.Keys == table.rows.Keys
            && Carried(table.rows[id], t.rows[id], KeyPlaintext in table.cols, if rebuilds then AccountId else SubscriptionId)
            && (rebuilds ==> Cell(t.rows[id], UserId) == Null && UserId !in t.cols)
            && (!rebuilds ==> Cell(t.rows[id], UserId) == Cell(table.rows[id], UserId) && (UserId in t.cols <==> UserId in table.cols))
  {
    KeyRowAtV5(table, 5 in versions, id);
    var t1 := KeysV5(table, 5 in versions);
    PlaintextCarries(t1, id);
    var t2 := WithPlaintext(t1);
    if 10 !in versions && AccountId in t2.cols { RebuiltCarries(t2, COPIED_KEY_COLUMNS + {KeyPlaintext}, id); }
  }

  /** Up to the first. */
  lemma KeyRowAtV5(table: Table, five: bool, id: int)
    requires id in table.rows
    ensures var t := KeysV5(table, five);
            && t.rows.Keys == table.rows.Keys && (KeyPlaintext in t.cols <==> KeyPlaintext in table.cols)
            && (if AccountId in table.cols && !five
                then Carried(table.rows[id], t.rows[id], KeyPlaintext in table.cols, AccountId)
                     && Cell(t.rows[id], UserId) == Null && UserId !in t.cols && AccountId !in t.cols
                else t == table)
  {
    if AccountId in table.cols && !five {
      RebuiltCarries(table, COPIED_KEY_COLUMNS + (if KeyPlaintext in table.cols then {KeyPlaintext} else {}), id);
    }
  }

  lemma V11Carries(table: Table, eleven: bool, id: int)
    requires id in table.rows
    ensures var t := KeysV11(table, eleven);
            && t.rows.Keys == table.rows.Keys
            && Carried(table.rows[id], t.rows[id], true, SubscriptionId)
            && (UserId in table.cols ==> Cell(t.rows[id], UserId) == Cell(table.rows[id], UserId))
            && (Cell(table.rows[id], UserId) == Null ==> Cell(t.rows[id], UserId) == Null)
  {
    assert UserId !in COPIED_KEY_COLUMNS;
    if UserId !in table.cols { AddedCarries(table, UserId, id); }
  }

  lemma KeyRowAfter(table: Table, versions: set<int>, id: int)
    requires id in table.rows
    ensures var t := KeysAfter(table, versions);
            var rebuilds := AccountId in table.cols && (5 !in versions || 10 !in versions);
            && t.rows.Keys == table.rows.Keys
            && Carried(table.rows[id], t.rows[id], KeyPlaintext in table.cols, if rebuilds then AccountId else SubscriptionId)
            && (rebuilds ==> Cell(t.rows[id], UserId) == Null)
            && (!rebuilds && UserId in table.cols ==> Cell(t.rows[id], UserId) == Cell(table.rows[id], UserId))
  {
    KeyRowBeforeV11(table, versions, id);
    var t := KeysV10(WithPlaintext(KeysV5(table, 5 in versions)), 10 in versions);
    V11Carries(t, 11 in versions, id);
  }

  // ---- Queue timeouts ----

  /** The table that is called subscriptions once the first phase is over. */
  function FirstSubscriptions(db: Db): Table {
    if Accounts in db.tables && (Subscriptions !in db.tables || db.tables[Subscriptions].rows == map[]) then db.tables[Accounts]
    else if Subscriptions in db.tables then db.tables[Subscriptions]
    else Table(SUBSCRIPTION_COLUMNS, map[])
  }

  lemma FirstPhaseSubscriptions(db: Db)
    ensures var after := Run(PHASE0, db);
            Subscriptions in after.tables && after.tables[Subscriptions] == FirstSubscriptions(db) && after.versions == db.versions
  {
    RunSix(PHASE0, db);
    SchemaMade(db);
    var made := Apply(PHASE0[3], Apply(PHASE0[2], Apply(PHASE0[1], Apply(PHASE0[0], db))));
    EarlyRename(made);
  }

  lemma SchemaMade(db: Db)
    ensures var made := Apply(PHASE0[3], Apply(PHASE0[2], Apply(PHASE0[1], Apply(PHASE0[0], db))));
            && made.versions == db.versions && Subscriptions in made.tables
            && made.tables[Subscriptions] == (if Subscriptions in db.tables then db.tables[Subscriptions] else Table(SUBSCRIPTION_COLUMNS, map[]))
            && (Accounts in made.tables <==> Accounts in db.tables)
            && (Accounts in db.tables ==> made.tables[Accounts] == db.tables[Accounts])
  {
  }

  lemma EarlyRename(made: Db)
    requires Subscriptions in made.tables
    ensures var after := Apply(RenameAccountsEarly, Apply(DropEmptySubscriptions, made));
            Subscriptions in after.tables && after.tables[Subscriptions] == FirstSubscriptions(made) && after.versions == made.versions
  {
  }

  /** Seconds as they are, or ceiling seconds of the milliseconds where seconds were 0 and version 3 was not recorded. */
  function Timeout(row: Row, cols: set<Column>, converted: bool): Value {
    var seconds := if QueueTimeoutSeconds in cols then Cell(row, QueueTimeoutSeconds) else Int(0);
    if !converted && QueueTimeoutMs in cols && seconds == Int(0) then ToSeconds(Cell(row, QueueTimeoutMs)) else seconds
  }

  ghost predicate HasTimeout(db: Db, id: int, v: Value) {
    Subscriptions in db.tables && id in db.tables[Subscriptions].rows && Cell(db.tables[Subscriptions].rows[id], QueueTimeoutSeconds) == v
  }

  predicate LeavesTimeouts(st: Statement) {
    match st
    case DropEmptySubscriptions => false
    case RenameAccountsEarly => false
    case AddColumn(_, _, c, _) => c != QueueTimeoutSeconds
    case RenameColumn(_, _, c, d) => c != QueueTimeoutSeconds && d != QueueTimeoutSeconds
    case DropColumn(_, _, c) => c != QueueTimeoutSeconds
    case ConvertMilliseconds => false
    case _ => true
  }

  lemma StatementLeavesTimeouts(st: Statement, db: Db, id: int, v: Value)
    requires LeavesTimeouts(st) && HasTimeout(db, id, v)
    ensures HasTimeout(Apply(st, db), id, v)
  {
  }

  lemma {:induction false} RunLeavesTimeouts(sts: seq<Statement>, db: Db, id: int, v: Value)
    requires HasTimeout(db, id, v) && forall i :: 0 <= i < |sts| ==> LeavesTimeouts(sts[i])
    ensures HasTimeout(Run(sts, db), id, v)
  {
    if sts != [] {
      StatementLeavesTimeouts(sts[0], db, id, v);
      assert forall i :: 0 <= i < |sts[1..]| ==> sts[1..][i] == sts[i + 1];
      RunLeavesTimeouts(sts[1..], Apply(sts[0], db), id, v);
    }
  }

  lemma PhaseLeavesTimeouts(p: nat, days: seq<int>)
    requires p >= 3
    ensures forall i :: 0 <= i < |Phase(p, days)| ==> LeavesTimeouts(Phase(p, days)[i])
  {
    LogColumnsAre(days);
  }

  /** The two phases that set the timeouts. */
  lemma TimeoutsSet(db: Db, days: seq<int>, id: int)
    requires Subscriptions in db.tables && id in db.tables[Subscriptions].rows
    ensures var t := db.tables[Subscriptions];
            HasTimeout(Run(Phase(2, days), Run(Phase(1, days), db)), id, Timeout(t.rows[id], t.cols, 3 in db.versions))
  {
    RunThree(Phase(1, days), db);
    var mid := Run(Phase(1, days), db);
    assert Phase(2, days) == [ConvertMilliseconds] + [Record(3)];
    RunAppend([ConvertMilliseconds], [Record(3)], mid);
    RunOne(ConvertMilliseconds, mid);
    RunOne(Record(3), Apply(ConvertMilliseconds, mid));
  }

  lemma TimeoutAfterPhase(db: Db, days: seq<int>, p: nat, id: int, v: Value)
    requires p >= 3 && HasTimeout(Run(Upto(p - 1, days), db), id, v)
    ensures HasTimeout(Run(Upto(p, days), db), id, v)
  {
    UptoStep(p, days, db);
    PhaseLeavesTimeouts(p, days);
    RunLeavesTimeouts(Phase(p, days), Run(Upto(p - 1, days), db), id, v);
  }

  /** A timeout set by the end of phase `p` is the timeout when Migrate is over, whether it fails or not. */
  lemma {:induction false} TimeoutLasts(db: Db, days: seq<int>, p: nat, id: int, v: Value)
    requires 2 <= p <= LAST && HasTimeout(Run(Upto(p, days), db), id, v) && (Stuck(db) ==> p <= 9)
    ensures HasTimeout(Migrated(db, days), id, v)
    decreases LAST - p
  {
    if p == LAST {
      UptoThenFrom(LAST, days);
      assert Upto(LAST, days) + [] == Upto(LAST, days);
    } else if p < 9 || !Stuck(db) {
      TimeoutAfterPhase(db, days, p + 1, id, v);
      TimeoutLasts(db, days, p + 1, id, v);
    }
  }

  /** Every row of the first subscriptions table keeps its id and ends with its timeout in seconds. */
  lemma TimeoutsConverted(db: Db, days: seq<int>, id: int)
    requires id in FirstSubscriptions(db).rows
    ensures HasTimeout(Migrated(db, days), id, Timeout(FirstSubscriptions(db).rows[id], FirstSubscriptions(db).cols, 3 in db.versions))
  {
    FirstPhaseSubscriptions(db);
    UptoStep(1, days, db);
    UptoStep(2, days, db);
    TimeoutsSet(Run(PHASE0, db), days, id);
    TimeoutLasts(db, days, 2, id, Timeout(FirstSubscriptions(db).rows[id], FirstSubscriptions(db).cols, 3 in db.versions));
  }

  // ---- Accounts that are copied instead of renamed ----

  /** Accounts and a non-empty subscriptions table that has no row `id` stand side by side. */
  ghost predicate Waiting(db: Db, accounts: Table, id: int) {
    && Accounts in db.tables && db.tables[Accounts] == accounts && id in accounts.rows
    && Subscriptions in db.tables && db.tables[Subscriptions].rows != map[] && id !in db.tables[Subscriptions].rows
    && 10 !in db.versions
  }

  predicate LeavesAccounts(st: Statement) {
    match st
    case AddColumn(_, t, _, _) => t != Accounts
    case RenameColumn(_, t, _, _) => t != Accounts
    case DropColumn(_, t, _) => t != Accounts
    case Record(v) => v != 10
    case CopyAccounts => false
    case DropAccounts => false
    case _ => true
  }

  lemma SameKeysNotEmpty(m: map<int, Row>, n: map<int, Row>)
    requires m.Keys == n.Keys && m != map[]
    ensures n != map[]
  {
    assert n == map[] ==> m.Keys == {};
    assert m.Keys == {} ==> m == map[];
  }

  lemma StatementLeavesAccounts(st: Statement, db: Db, accounts: Table, id: int)
    requires LeavesAccounts(st) && Waiting(db, accounts, id)
    ensures Waiting(Apply(st, db), accounts, id)
  {
    SameKeysNotEmpty(db.tables[Subscriptions].rows, Apply(st, db).tables[Subscriptions].rows);
  }

  lemma {:induction false} RunLeavesAccounts(sts: seq<Statement>, db: Db, accounts: Table, id: int)
    requires Waiting(db, accounts, id) && forall i :: 0 <= i < |sts| ==> LeavesAccounts(sts[i])
    ensures Waiting(Run(sts, db), accounts, id)
  {
    if sts != [] {
      StatementLeavesAccounts(sts[0], db, accounts, id);
      assert forall i :: 0 <= i < |sts[1..]| ==> sts[1..][i] == sts[i + 1];
      RunLeavesAccounts(sts[1..], Apply(sts[0], db), accounts, id);
    }
  }

  lemma {:induction false} UptoLeavesAccounts(p: nat, days: seq<int>)
    requires p <= 8
    ensures forall i :: 0 <= i < |Upto(p, days)| ==> LeavesAccounts(Upto(p, days)[i])
  {
    if p > 0 {
      UptoLeavesAccounts(p - 1, days);
      assert forall i :: 0 <= i < |Phase(p, days)| ==> LeavesAccounts(Phase(p, days)[i]);
    }
  }

  /** The phase that copies the accounts. */
  lemma AccountsCopied(db: Db, days: seq<int>, accounts: Table, id: int)
    requires Waiting(db, accounts, id)
    ensures HasTimeout(Run(Phase(9, days), db), id, Cell(accounts.rows[id], QueueTimeoutSeconds))
  {
    var rest := [DropAccounts, DropColumn(Some(10), Subscriptions, CreatedByUserId)];
    assert Phase(9, days) == [RenameAccountsV10] + ([CopyAccounts] + rest);
    RunAppend([RenameAccountsV10], [CopyAccounts] + rest, db);
    RunOne(RenameAccountsV10, db);
    RunAppend([CopyAccounts], rest, db);
    RunOne(CopyAccounts, db);
    NotRenamed(db, accounts, id);
    RunLeavesTimeouts(rest, Apply(CopyAccounts, db), id, Cell(accounts.rows[id], QueueTimeoutSeconds));
  }

  lemma NotRenamed(db: Db, accounts: Table, id: int)
    requires Waiting(db, accounts, id)
    ensures Apply(RenameAccountsV10, db) == db && HasTimeout(Apply(CopyAccounts, db), id, Cell(accounts.rows[id], QueueTimeoutSeconds))
  {
  }

  /** An account copied beside existing subscriptions keeps its seconds: its milliseconds are never looked at. */
  lemma CopiedTimeoutsAreNotConverted(db: Db, days: seq<int>, id: int)
    requires Accounts in db.tables && Waiting(db, db.tables[Accounts], id)
    ensures HasTimeout(Migrated(db, days), id, Cell(db.tables[Accounts].rows[id], QueueTimeoutSeconds))
  {
    var accounts := db.tables[Accounts];
    UptoLeavesAccounts(8, days);
    RunLeavesAccounts(Upto(8, days), db, accounts, id);
    UptoStep(9, days, db);
    AccountsCopied(Run(Upto(8, days), db), days, accounts, id);
    TimeoutLasts(db, days, 9, id, Cell(accounts.rows[id], QueueTimeoutSeconds));
  }
}

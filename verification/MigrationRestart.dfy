/** Stopping Migrate after any committed statement and running it again. */
module MigrationRestart {
  import opened Prelude
  import opened Migration

  // ---- How far a database has come ----

  ghost predicate Base(db: Db) {
    && Subscriptions in db.tables && ApiKeys in db.tables && Admin in db.tables && Users in db.tables
    && (Accounts in db.tables ==> db.tables[Subscriptions].rows != map[])
  }

  ghost predicate AccountsGone(db: Db) {
    Accounts !in db.tables && !HasColumn(db, Subscriptions, CreatedByUserId)
  }

  /** What the phases before `p` leave behind. */
  ghost predicate Reached(db: Db, p: nat) {
    && Base(db)
    && (p >= 2 ==> HasColumn(db, Subscriptions, QueueTimeoutSeconds) && 1 in db.versions && 2 in db.versions)
    && (p >= 3 ==> 3 in db.versions)
    && (p >= 4 ==> 4 in db.versions)
    && (p >= 5 ==> 5 in db.versions)
    && (p >= 6 ==> 6 in db.versions)
    && (p >= 7 ==> HasColumn(db, ApiKeys, KeyPlaintext))
    && (p >= 8 ==> 7 in db.versions)
    && (p >= 9 ==> 9 in db.versions)
    && (p >= 10 ==> 10 in db.versions || AccountsGone(db))
    && (p >= 11 ==> 10 in db.versions)
    && (p >= 12 ==> 11 in db.versions)
  }

  // ---- No later statement undoes what a phase has reached ----

  /** The statements of the phases after the first. */
  predicate Later(st: Statement) {
    match st
    case CreateTable(_, _) => false
    case DropEmptySubscriptions => false
    case RenameAccountsEarly => false
    case AddColumn(_, _, c, _) => c != CreatedByUserId && c != AccountId
    case RenameColumn(_, _, c, d) => c in {CredentialsEncrypted, ProxyUrlEncrypted, TotpSecretEnc} && d != CreatedByUserId && d != AccountId
    case DropColumn(_, _, c) => c == CredentialKeyId || c == CreatedByUserId
    case _ => true
  }

  lemma ColumnStatementKeeps(st: Statement, db: Db, p: nat)
    requires Reached(db, p) && Later(st) && (st.AddColumn? || st.RenameColumn? || st.DropColumn?)
    ensures Reached(Apply(st, db), p)
  {
  }

  lemma ConvertKeeps(db: Db, p: nat)
    requires Reached(db, p)
    ensures Reached(Apply(ConvertMilliseconds, db), p)
  {
    if 3 !in db.versions && HasColumn(db, Subscriptions, QueueTimeoutMs) {
      var after := Apply(ConvertMilliseconds, db).tables[Subscriptions].rows;
      assert after.Keys == db.tables[Subscriptions].rows.Keys;
    }
  }

  lemma RowsStay(m: map<int, Row>, n: map<int, Row>)
    requires m.Keys <= n.Keys && m != map[]
    ensures n != map[]
  {
    assert n == map[] ==> m.Keys == {};
    assert m.Keys == {} ==> m == map[];
  }

  lemma CopyAccountsKeeps(db: Db, p: nat)
    requires Reached(db, p)
    ensures Reached(Apply(CopyAccounts, db), p)
  {
    if 10 !in db.versions && Accounts in db.tables {
      RowsStay(db.tables[Subscriptions].rows, Merged(db.tables[Subscriptions], db.tables[Accounts]).rows);
    }
  }

  lemma OtherStatementKeeps(st: Statement, db: Db, p: nat)
    requires Reached(db, p) && Later(st) && !st.AddColumn? && !st.RenameColumn? && !st.DropColumn?
    requires !st.ConvertMilliseconds? && !st.CopyAccounts?
    ensures Reached(Apply(st, db), p)
  {
  }

  lemma LaterKeeps(st: Statement, db: Db, p: nat)
    requires Reached(db, p) && Later(st)
    ensures Reached(Apply(st, db), p)
  {
    if st.AddColumn? || st.RenameColumn? || st.DropColumn? { ColumnStatementKeeps(st, db, p); }
    else if st.ConvertMilliseconds? { ConvertKeeps(db, p); }
    else if st.CopyAccounts? { CopyAccountsKeeps(db, p); }
    else { OtherStatementKeeps(st, db, p); }
  }

  lemma {:induction false} LogColumnsAre(days: seq<int>)
    ensures forall i :: 0 <= i < |LogColumns(days)| ==> LogColumns(days)[i].RenameLogColumn?
    ensures |LogColumns(days)| == |days|
  {
    if days != [] {
      LogColumnsAre(days[1..]);
    }
  }

  // ---- The first phase ----

  /** After the drop of an empty subscriptions table a new run makes it and drops it again. */
  lemma RunAfterDrop(db: Db)
    requires Accounts in db.tables && Subscriptions !in db.tables
    requires ApiKeys in db.tables && Admin in db.tables && Users in db.tables
    ensures Run(PHASE0[..5], db) == db
  {
    var made := Apply(PHASE0[0], db);
    var dropped := Apply(DropEmptySubscriptions, made);
    assert dropped.tables == db.tables;
    RunFiveIs(db);
  }

  lemma RunFiveIs(db: Db)
    ensures Run(PHASE0[..5], db) == Apply(PHASE0[4], Apply(PHASE0[3], Apply(PHASE0[2], Apply(PHASE0[1], Apply(PHASE0[0], db)))))
  {
    assert PHASE0[..5] == PHASE0[..3] + [PHASE0[3], PHASE0[4]];
    RunAppend(PHASE0[..3], [PHASE0[3], PHASE0[4]], db);
    RunThree(PHASE0[..3], db);
    var three := Run(PHASE0[..3], db);
    var two := [PHASE0[3], PHASE0[4]];
    assert Run(two, three) == Run(two[1..], Apply(PHASE0[3], three));
    assert two[1..] == [PHASE0[4]] && [PHASE0[4]][1..] == [];
  }

  lemma RunSix(s: seq<Statement>, db: Db)
    requires |s| == 6
    ensures Run(s, db) == Apply(s[5], Apply(s[4], Apply(s[3], Apply(s[2], Apply(s[1], Apply(s[0], db))))))
  {
    RunAppend(s[..3], s[3..], db);
    assert s[..3] + s[3..] == s;
    RunThree(s[..3], db);
    RunThree(s[3..], Run(s[..3], db));
  }

  lemma RunThree(s: seq<Statement>, db: Db)
    requires |s| == 3
    ensures Run(s, db) == Apply(s[2], Apply(s[1], Apply(s[0], db)))
  {
    var a := Apply(s[0], db);
    var b := Apply(s[1], a);
    assert Run(s, db) == Run(s[1..], a);
    assert s[1..][0] == s[1] && s[1..][1..] == s[2..];
    assert Run(s[1..], a) == Run(s[2..], b);
    assert s[2..][0] == s[2] && s[2..][1..] == [];
    assert Run(s[2..], b) == Run([], Apply(s[2], b));
  }

  lemma FirstPhaseReaches(db: Db)
    ensures Base(Run(PHASE0, db)) && Reached(Run(PHASE0, db), 1)
  {
    RunSix(PHASE0, db);
    var made := Apply(PHASE0[3], Apply(PHASE0[2], Apply(PHASE0[1], Apply(PHASE0[0], db))));
    assert Subscriptions in made.tables && ApiKeys in made.tables && Admin in made.tables && Users in made.tables;
  }

  lemma BaseSettlesFirstPhase(db: Db)
    requires Base(db)
    ensures AllSettled(PHASE0, db)
  {
  }

  /** The tables made by the first `k` statements are there. */
  lemma MadeTables(db: Db, k: nat)
    requires k <= 4
    ensures AllSettled(PHASE0[..k], Run(PHASE0[..k], db))
  {
    if k > 0 {
      MadeTables(db, k - 1);
      assert PHASE0[..k] == PHASE0[..k - 1] + [PHASE0[k - 1]];
      RunAppend(PHASE0[..k - 1], [PHASE0[k - 1]], db);
      var before := Run(PHASE0[..k - 1], db);
      assert Run([PHASE0[k - 1]], before) == Run([PHASE0[k - 1]][1..], Apply(PHASE0[k - 1], before));
      var after := Apply(PHASE0[k - 1], before);
      forall i | 0 <= i < k ensures Settled(PHASE0[..k][i], after) {
        if i < k - 1 { assert Settled(PHASE0[..k - 1][i], before); }
      }
    }
  }

  /** Whatever the first `k` statements of the first phase did, doing them again changes nothing. */
  lemma FirstPhaseAgain(db: Db, k: nat)
    requires k <= 6
    ensures Run(PHASE0[..k], Run(PHASE0[..k], db)) == Run(PHASE0[..k], db)
  {
    if k <= 4 {
      MadeTables(db, k);
      AllSettledIsIdentity(PHASE0[..k], Run(PHASE0[..k], db));
    } else if k == 6 {
      assert PHASE0[..6] == PHASE0;
      FirstPhaseReaches(db);
      BaseSettlesFirstPhase(Run(PHASE0, db));
      AllSettledIsIdentity(PHASE0, Run(PHASE0, db));
    } else {
      DropAgain(db);
    }
  }

  lemma DropAgain(db: Db)
    ensures Run(PHASE0[..5], Run(PHASE0[..5], db)) == Run(PHASE0[..5], db)
  {
    var mid := Run(PHASE0[..5], db);
    RunFive(db, mid);
    if Subscriptions in mid.tables {
      BaseSettlesFirstPhase(mid);
      forall i | 0 <= i < 5 ensures Settled(PHASE0[..5][i], mid) { assert Settled(PHASE0[i], mid); }
      AllSettledIsIdentity(PHASE0[..5], mid);
    } else {
      RunAfterDrop(mid);
    }
  }

  /** The state after the drop, if there was one. */
  lemma RunFive(db: Db, mid: Db)
    requires mid == Run(PHASE0[..5], db)
    ensures ApiKeys in mid.tables && Admin in mid.tables && Users in mid.tables
    ensures Subscriptions in mid.tables ==> Base(mid)
    ensures Subscriptions !in mid.tables ==> Accounts in mid.tables
  {
    RunFiveIs(db);
  }

  // ---- The later phases ----

  lemma ConvertedTwice(row: Row)
    ensures Converted(Converted(row)) == Converted(row)
  {
    if Cell(row, QueueTimeoutSeconds) == Int(0) {
      var once := Converted(row);
      assert Cell(once, QueueTimeoutMs) == Cell(row, QueueTimeoutMs);
      if Cell(once, QueueTimeoutSeconds) == Int(0) {
        assert once[QueueTimeoutSeconds := once[QueueTimeoutSeconds]] == once;
      }
    }
  }

  lemma ConvertSettles(db: Db)
    ensures Settled(ConvertMilliseconds, Apply(ConvertMilliseconds, db))
  {
    if 3 !in db.versions && HasColumn(db, Subscriptions, QueueTimeoutMs) {
      var rows := db.tables[Subscriptions].rows;
      forall id | id in rows ensures Converted(Converted(rows[id])) == Converted(rows[id]) { ConvertedTwice(rows[id]); }
    }
  }

  lemma CopyAdminSettles(db: Db)
    ensures Settled(CopyAdmin, Apply(CopyAdmin, db))
  {
    var after := Apply(CopyAdmin, db);
    if after != db {
      assert db.lastUser + 1 in after.tables[Users].rows;
    }
  }

  /** A statement's work is done once it has run. */
  lemma SettlesItself(st: Statement, db: Db)
    requires Later(st) && Base(db)
    ensures Settled(st, Apply(st, db))
  {
    if st.ConvertMilliseconds? { ConvertSettles(db); }
    else if st.CopyAdmin? { CopyAdminSettles(db); }
  }

  /** `next` leaves the work of `st` done. */
  predicate Respects(st: Statement, next: Statement) {
    match next
    case Record(_) => true
    case AddColumn(_, t, c, _) =>
      (st.AddColumn? || st.RenameColumn? || st.DropColumn?) && (st.t == t && !st.AddColumn? ==> st.c != c)
    case RenameColumn(_, t, c, d) =>
      && (st.AddColumn? || st.RenameColumn? || st.DropColumn?)
      && (st.t == t ==> if st.AddColumn? then st.c != c else if st.RenameColumn? then st.d != c && st.c != d else st.c != d)
    case DropColumn(_, t, c) =>
      || st.RenameAccountsV10? || st.CopyAccounts? || st.DropAccounts?
      || ((st.AddColumn? || st.RenameColumn? || st.DropColumn?) && (st.t == t ==> if st.RenameColumn? then st.d != c else st.DropColumn? || st.c != c))
    case RenameLogColumn(_) => st.RenameLogColumn? || st.RebuildKeysV10?
    case CopyAccounts => st.RenameAccountsV10?
    case DropAccounts => st.RenameAccountsV10? || st.CopyAccounts?
    case _ => false
  }

  lemma ColumnsUndisturbed(st: Statement, next: Statement, db: Db)
    requires Respects(st, next) && Settled(st, db) && (next.AddColumn? || next.RenameColumn? || next.DropColumn?)
    requires st.AddColumn? || st.RenameColumn? || st.DropColumn?
    ensures Settled(st, Apply(next, db))
  {
  }

  lemma AccountsUndisturbed(st: Statement, next: Statement, db: Db)
    requires Respects(st, next) && Settled(st, db) && Base(db)
    requires st.RenameAccountsV10? || st.CopyAccounts? || st.DropAccounts?
    ensures Settled(st, Apply(next, db))
  {
  }

  lemma Undisturbed(st: Statement, next: Statement, db: Db)
    requires Respects(st, next) && Settled(st, db) && Base(db)
    ensures Settled(st, Apply(next, db))
  {
    if next.Record? {
    } else if next.RenameLogColumn? {
    } else if (next.AddColumn? || next.RenameColumn? || next.DropColumn?) && (st.AddColumn? || st.RenameColumn? || st.DropColumn?) {
      ColumnsUndisturbed(st, next, db);
    } else {
      AccountsUndisturbed(st, next, db);
    }
  }

  ghost predicate InOrder(sts: seq<Statement>) {
    && (forall i :: 0 <= i < |sts| ==> Later(sts[i]))
    && (forall i, j :: 0 <= i < j < |sts| ==> Respects(sts[i], sts[j]))
  }

  lemma RunOne(st: Statement, db: Db)
    ensures Run([st], db) == Apply(st, db)
  {
    assert [st][1..] == [];
  }

  /** In such a list everything that has run is settled at every stop. */
  lemma {:induction false} PrefixSettled(sts: seq<Statement>, k: nat, db: Db, p: nat)
    requires InOrder(sts) && k <= |sts| && Reached(db, p)
    ensures AllSettled(sts[..k], Run(sts[..k], db)) && Reached(Run(sts[..k], db), p)
    decreases k
  {
    if k > 0 {
      PrefixSettled(sts, k - 1, db, p);
      var before, st := Run(sts[..k - 1], db), sts[k - 1];
      assert sts[..k] == sts[..k - 1] + [st];
      RunAppend(sts[..k - 1], [st], db);
      RunOne(st, before);
      LaterKeeps(st, before, p);
      SettlesItself(st, before);
      forall i | 0 <= i < k ensures Settled(sts[..k][i], Apply(st, before)) {
        if i < k - 1 {
          assert Settled(sts[..k - 1][i], before);
          Undisturbed(sts[i], st, before);
        }
      }
    }
  }

  lemma {:induction false} LogsInOrder(days: seq<int>)
    ensures InOrder([RebuildKeysV10] + LogColumns(days) + [Record(10)])
  {
    LogColumnsAre(days);
  }

  lemma PhaseInOrder(p: nat, days: seq<int>)
    requires p >= 1
    ensures InOrder(Phase(p, days))
  {
    if p == 10 { LogsInOrder(days); }
    else if p == 3 { ColumnsInOrder(days); }
    else { ShortPhaseInOrder(p, days); }
  }

  lemma ColumnsInOrder(days: seq<int>)
    ensures InOrder(Phase(3, days))
  {
  }

  lemma ShortPhaseInOrder(p: nat, days: seq<int>)
    requires p >= 1 && p != 3 && p != 10
    ensures InOrder(Phase(p, days))
  {
  }

  lemma SettledMeansReached(db: Db, p: nat, days: seq<int>)
    requires 1 <= p <= LAST && Reached(db, p) && AllSettled(Phase(p, days), db)
    ensures Reached(db, p + 1)
  {
    var sts := Phase(p, days);
    assert Settled(sts[|sts| - 1], db);
    if p == 1 { assert Settled(sts[0], db) && Settled(sts[1], db); }
    if p == 9 { assert Settled(sts[2], db) && Settled(sts[3], db); }
  }

  lemma ReachedMeansSettled(db: Db, p: nat, days: seq<int>)
    requires 1 <= p <= LAST && Reached(db, p + 1)
    ensures AllSettled(Phase(p, days), db)
  {
    if p == 10 { LogColumnsAre(days); }
  }

  lemma PhaseReaches(db: Db, p: nat, days: seq<int>)
    requires 1 <= p <= LAST && Reached(db, p)
    ensures Reached(Run(Phase(p, days), db), p + 1)
  {
    var sts := Phase(p, days);
    PhaseInOrder(p, days);
    PrefixSettled(sts, |sts|, db, p);
    assert sts[..|sts|] == sts;
    SettledMeansReached(Run(sts, db), p, days);
  }

  /** A stop beyond the first part of a list, with what that part did still settled. */
  lemma StopBeyond(sts: seq<Statement>, rest: seq<Statement>, i: nat, j: nat, db: Db, mid: Db)
    requires |sts| <= i <= j <= |sts| + |rest| && mid == Run(rest[..i - |sts|], Run(sts, db)) && AllSettled(sts, mid)
    requires Run(rest[..j - |sts|], mid) == Run(rest[..j - |sts|], Run(sts, db))
    ensures Run((sts + rest)[..i], db) == mid
    ensures Run((sts + rest)[..j], mid) == Run((sts + rest)[..j], db)
  {
    assert (sts + rest)[..i] == sts + rest[..i - |sts|] && (sts + rest)[..j] == sts + rest[..j - |sts|];
    RunAppend(sts, rest[..i - |sts|], db);
    RunAppend(sts, rest[..j - |sts|], db);
    RunAppend(sts, rest[..j - |sts|], mid);
    AllSettledIsIdentity(sts, mid);
  }

  /** A stop within it, where doing the same part again would change nothing. */
  lemma StopWithin(sts: seq<Statement>, rest: seq<Statement>, i: nat, j: nat, db: Db)
    requires i <= |sts| && i <= j <= |sts| + |rest| && Run(sts[..i], Run(sts[..i], db)) == Run(sts[..i], db)
    ensures (sts + rest)[..i] == sts[..i]
    ensures Run((sts + rest)[..j], Run(sts[..i], db)) == Run((sts + rest)[..j], db)
  {
    assert (sts + rest)[..j][..i] == sts[..i];
    RestartList((sts + rest)[..j], i, db);
  }

  /** What stopping after `i` statements of a list and then after `j` comes to, and how far the first stop has come. */
  ghost predicate StopsWell(sts: seq<Statement>, db: Db, p: nat, i: nat, j: nat)
    requires i <= j <= |sts|
  {
    Reached(Run(sts[..i], db), p) && Run(sts[..j], Run(sts[..i], db)) == Run(sts[..j], db)
  }

  /** The first stop lies within the first of two lists. */
  lemma StopsInFirst(sts: seq<Statement>, rest: seq<Statement>, db: Db, p: nat, i: nat, j: nat)
    requires InOrder(sts) && Reached(db, p) && i <= j <= |sts| + |rest| && i <= |sts|
    ensures StopsWell(sts + rest, db, p, i, j)
  {
    PrefixSettled(sts, i, db, p);
    AllSettledIsIdentity(sts[..i], Run(sts[..i], db));
    StopWithin(sts, rest, i, j, db);
  }

  /** The first stop lies in the second. */
  lemma StopsInSecond(sts: seq<Statement>, rest: seq<Statement>, db: Db, after: Db, p: nat, i: nat, j: nat)
    requires |sts| <= i <= j <= |sts| + |rest| && after == Run(sts, db)
    requires StopsWell(rest, after, p, i - |sts|, j - |sts|) && AllSettled(sts, Run(rest[..i - |sts|], after))
    ensures StopsWell(sts + rest, db, p, i, j)
  {
    StopBeyond(sts, rest, i, j, db, Run(rest[..i - |sts|], after));
  }

  lemma EarlierReached(db: Db, p: nat)
    requires Reached(db, p + 1)
    ensures Reached(db, p)
  {
  }

  lemma ReachedAtStop(sts: seq<Statement>, db: Db, p: nat, i: nat, j: nat)
    requires i <= j <= |sts| && StopsWell(sts, db, p + 1, i, j)
    ensures StopsWell(sts, db, p, i, j)
  {
    EarlierReached(Run(sts[..i], db), p);
  }

  /** Whenever the next phase is reached, all of this one is settled. */
  ghost predicate Stays(sts: seq<Statement>, p: nat) { forall db :: Reached(db, p + 1) ==> AllSettled(sts, db) }

  /** Running the phase reaches the next one. */
  ghost predicate Advances(sts: seq<Statement>, p: nat) { forall db :: Reached(db, p) ==> Reached(Run(sts, db), p + 1) }

  ghost predicate PhaseOk(sts: seq<Statement>, p: nat) { InOrder(sts) && Stays(sts, p) && Advances(sts, p) }

  lemma EveryPhaseOk(p: nat, days: seq<int>)
    requires 1 <= p <= LAST
    ensures PhaseOk(Phase(p, days), p)
  {
    PhaseInOrder(p, days);
    forall db | Reached(db, p + 1) ensures AllSettled(Phase(p, days), db) { ReachedMeansSettled(db, p, days); }
    forall db | Reached(db, p) ensures Reached(Run(Phase(p, days), db), p + 1) { PhaseReaches(db, p, days); }
  }

  function Concat(phases: seq<seq<Statement>>): seq<Statement> {
    if phases == [] then [] else phases[0] + Concat(phases[1..])
  }

  ghost predicate PhasesOk(phases: seq<seq<Statement>>, p: nat) {
    phases == [] || (PhaseOk(phases[0], p) && PhasesOk(phases[1..], p + 1))
  }

  /** Where the first of the phases leaves the database. */
  lemma NextPhase(phases: seq<seq<Statement>>, db: Db, p: nat) returns (after: Db)
    requires phases != [] && PhasesOk(phases, p) && Reached(db, p)
    ensures PhasesOk(phases[1..], p + 1) && Concat(phases) == phases[0] + Concat(phases[1..])
    ensures after == Run(phases[0], db) && Reached(after, p + 1)
  {
    after := Run(phases[0], db);
  }

  /** The first stop lies in the first of the phases or behind it. */
  lemma StopAround(phases: seq<seq<Statement>>, rest: seq<Statement>, all: seq<Statement>, db: Db, after: Db, p: nat, i: nat, j: nat)
    requires phases != [] && PhasesOk(phases, p) && all == phases[0] + rest && i <= j <= |all|
    requires Reached(db, p) && after == Run(phases[0], db)
    requires |phases[0]| <= i ==> StopsWell(rest, after, p + 1, i - |phases[0]|, j - |phases[0]|)
    ensures StopsWell(all, db, p, i, j)
  {
    if i < |phases[0]| {
      StopInside(phases, rest, db, p, i, j);
    } else {
      StopBehind(phases, rest, db, after, p, i, j);
    }
  }

  lemma StopInside(phases: seq<seq<Statement>>, rest: seq<Statement>, db: Db, p: nat, i: nat, j: nat)
    requires phases != [] && PhasesOk(phases, p) && Reached(db, p) && i <= j <= |phases[0]| + |rest| && i <= |phases[0]|
    ensures StopsWell(phases[0] + rest, db, p, i, j)
  {
    StopsInFirst(phases[0], rest, db, p, i, j);
  }

  lemma StopBehind(phases: seq<seq<Statement>>, rest: seq<Statement>, db: Db, after: Db, p: nat, i: nat, j: nat)
    requires phases != [] && PhasesOk(phases, p) && after == Run(phases[0], db) && |phases[0]| <= i <= j <= |phases[0]| + |rest|
    requires StopsWell(rest, after, p + 1, i - |phases[0]|, j - |phases[0]|)
    ensures StopsWell(phases[0] + rest, db, p, i, j)
  {
    StopsInSecond(phases[0], rest, db, after, p + 1, i, j);
    ReachedAtStop(phases[0] + rest, db, p, i, j);
  }

  /** A run of phases from `p` on that stops after `i` statements, then one that stops after `j`. */
  lemma {:induction false} StopLater(phases: seq<seq<Statement>>, db: Db, p: nat, i: nat, j: nat)
    requires PhasesOk(phases, p) && Reached(db, p) && i <= j <= |Concat(phases)|
    ensures StopsWell(Concat(phases), db, p, i, j)
    decreases |phases|
  {
    if phases != [] {
      var after := NextPhase(phases, db, p);
      var n := |phases[0]|;
      if n <= i { StopLater(phases[1..], after, p + 1, i - n, j - n); }
      StopAround(phases, Concat(phases[1..]), Concat(phases), db, after, p, i, j);
    }
  }

  /** The phases from `p` on, one by one. */
  lemma {:induction false} PhasesFrom(p: nat, days: seq<int>) returns (phases: seq<seq<Statement>>)
    requires 1 <= p <= LAST + 1
    ensures Concat(phases) == From(p, days) && PhasesOk(phases, p)
    decreases LAST + 1 - p
  {
    if p > LAST {
      phases := [];
    } else {
      var rest := PhasesFrom(p + 1, days);
      phases := OneMorePhase(p, days, rest);
    }
  }

  lemma OneMorePhase(p: nat, days: seq<int>, rest: seq<seq<Statement>>) returns (phases: seq<seq<Statement>>)
    requires 1 <= p <= LAST && PhasesOk(rest, p + 1) && Concat(rest) == From(p + 1, days)
    ensures PhasesOk(phases, p) && Concat(phases) == From(p, days)
  {
    var sts := PhaseBefore(p, days);
    phases := [sts] + rest;
    PhaseInFront(sts, rest, p);
  }

  lemma PhaseInFront(sts: seq<Statement>, rest: seq<seq<Statement>>, p: nat)
    requires PhaseOk(sts, p) && PhasesOk(rest, p + 1)
    ensures PhasesOk([sts] + rest, p) && Concat([sts] + rest) == sts + Concat(rest)
  {
    var phases := [sts] + rest;
    assert phases[0] == sts && phases[1..] == rest;
  }

  lemma PhaseBefore(p: nat, days: seq<int>) returns (sts: seq<Statement>)
    requires 1 <= p <= LAST
    ensures PhaseOk(sts, p) && From(p, days) == sts + From(p + 1, days)
  {
    EveryPhaseOk(p, days);
    FromUnfolds(p, days);
    sts := Phase(p, days);
  }

  lemma StopAfterFirst(db: Db, days: seq<int>, i: nat, j: nat)
    requires Reached(db, 1) && i <= j <= |From(1, days)|
    ensures StopsWell(From(1, days), db, 1, i, j)
  {
    var phases := PhasesFrom(1, days);
    StopLater(phases, db, 1, i, j);
  }

  /** A run that stops after `i` statements, then one that stops after `j` of them, is one run that stops after `j`. */
  lemma StopTwice(db: Db, days: seq<int>, i: nat, j: nat)
    requires i <= j <= |Program(days)|
    ensures Run(Program(days)[..j], Run(Program(days)[..i], db)) == Run(Program(days)[..j], db)
  {
    var rest := From(1, days);
    if i <= |PHASE0| {
      FirstPhaseAgain(db, i);
      StopWithin(PHASE0, rest, i, j, db);
    } else {
      FirstPhaseReaches(db);
      StopAfterFirst(Run(PHASE0, db), days, i - |PHASE0|, j - |PHASE0|);
      var mid := Run(rest[..i - |PHASE0|], Run(PHASE0, db));
      BaseSettlesFirstPhase(mid);
      StopBeyond(PHASE0, rest, i, j, db, mid);
    }
  }

  // ---- Where Migrate gets stuck ----

  /** The statements before the second rebuild neither cause the error nor cure it. */
  predicate Neutral(st: Statement) {
    match st
    case CreateTable(t, cols) => t == ApiKeys ==> SubscriptionId in cols
    case AddColumn(_, t, c, _) => t == ApiKeys ==> c != AccountId && c != SubscriptionId
    case RenameColumn(_, t, _, _) => t != ApiKeys
    case DropColumn(_, t, _) => t != ApiKeys
    case Record(v) => v != 10
    case RenameLogColumn(_) => false
    case RebuildKeysV10 => false
    case _ => true
  }

  lemma NeutralKeepsStuck(st: Statement, db: Db)
    requires Neutral(st)
    ensures Stuck(Apply(st, db)) <==> Stuck(db)
  {
  }

  lemma {:induction false} NeutralRun(sts: seq<Statement>, db: Db)
    requires forall i :: 0 <= i < |sts| ==> Neutral(sts[i])
    ensures Stuck(Run(sts, db)) <==> Stuck(db)
  {
    if sts != [] {
      NeutralKeepsStuck(sts[0], db);
      assert forall i :: 0 <= i < |sts[1..]| ==> sts[1..][i] == sts[i + 1];
      NeutralRun(sts[1..], Apply(sts[0], db));
    }
  }

  lemma {:induction false} UptoIsNeutral(p: nat, days: seq<int>)
    requires p <= 9
    ensures forall i :: 0 <= i < |Upto(p, days)| ==> Neutral(Upto(p, days)[i])
  {
    if p > 0 {
      UptoIsNeutral(p - 1, days);
      PhaseIsNeutral(p, days);
    }
  }

  lemma PhaseIsNeutral(p: nat, days: seq<int>)
    requires p <= 9
    ensures forall i :: 0 <= i < |Phase(p, days)| ==> Neutral(Phase(p, days)[i])
  {
  }

  lemma {:induction false} UptoThenFrom(p: nat, days: seq<int>)
    requires p <= LAST
    ensures Upto(p, days) + From(p + 1, days) == Program(days)
  {
    if p > 0 {
      UptoThenFrom(p - 1, days);
      FromUnfolds(p, days);
      Regroup(Upto(p - 1, days), Phase(p, days), From(p + 1, days));
    }
  }

  lemma FromUnfolds(p: nat, days: seq<int>)
    requires 1 <= p <= LAST
    ensures From(p, days) == Phase(p, days) + From(p + 1, days)
  {
  }

  predicate Harmless(st: Statement) {
    && (st.CreateTable? ==> st.t == ApiKeys ==> SubscriptionId in st.cols)
    && (st.RenameColumn? || st.DropColumn? ==> st.t != ApiKeys)
  }

  /** A database that Migrate can deal with stays one, whatever statement comes next. */
  lemma NotStuckStays(st: Statement, db: Db)
    requires !Stuck(db) && Harmless(st)
    ensures !Stuck(Apply(st, db))
  {
  }

  lemma {:induction false} NotStuckRun(sts: seq<Statement>, db: Db)
    requires !Stuck(db) && forall i :: 0 <= i < |sts| ==> Harmless(sts[i])
    ensures !Stuck(Run(sts, db))
  {
    if sts != [] {
      NotStuckStays(sts[0], db);
      assert forall i :: 0 <= i < |sts[1..]| ==> sts[1..][i] == sts[i + 1];
      NotStuckRun(sts[1..], Apply(sts[0], db));
    }
  }

  ghost predicate AllHarmless(sts: seq<Statement>) { forall i :: 0 <= i < |sts| ==> Harmless(sts[i]) }

  lemma HarmlessAppend(a: seq<Statement>, b: seq<Statement>)
    requires AllHarmless(a) && AllHarmless(b)
    ensures AllHarmless(a + b)
  {
  }

  lemma {:induction false} FromIsHarmless(p: nat, days: seq<int>)
    requires 1 <= p <= LAST + 1
    ensures AllHarmless(From(p, days))
    decreases LAST + 1 - p
  {
    if p <= LAST {
      FromIsHarmless(p + 1, days);
      PhaseIsHarmless(p, days);
      FromUnfolds(p, days);
      HarmlessInFront(Phase(p, days), From(p + 1, days), From(p, days));
    }
  }

  lemma HarmlessInFront(a: seq<Statement>, b: seq<Statement>, all: seq<Statement>)
    requires AllHarmless(a) && AllHarmless(b) && all == a + b
    ensures AllHarmless(all)
  {
    HarmlessAppend(a, b);
  }

  lemma PhaseIsHarmless(p: nat, days: seq<int>)
    ensures AllHarmless(Phase(p, days))
  {
    LogColumnsAre(days);
  }

  // ---- The theorems ----

  /** How many statements Migrate runs. */
  function Length(db: Db, days: seq<int>): nat {
    if Stuck(db) then |Upto(9, days)| else |Program(days)|
  }

  lemma UptoIsPrefix(days: seq<int>)
    ensures |Upto(9, days)| <= |Program(days)| && Program(days)[..|Upto(9, days)|] == Upto(9, days)
  {
    UptoThenFrom(9, days);
  }

  lemma ProgramIsHarmless(days: seq<int>, i: nat)
    requires i <= |Program(days)|
    ensures forall k :: 0 <= k < i ==> Harmless(Program(days)[..i][k])
  {
    FromIsHarmless(1, days);
    HarmlessAppend(PHASE0, From(1, days));
    forall k | 0 <= k < i ensures Harmless(Program(days)[..i][k]) { assert Harmless(Program(days)[k]); }
  }

  lemma PrefixIsNeutral(days: seq<int>, i: nat)
    requires i <= |Upto(9, days)|
    ensures i <= |Program(days)| && forall k :: 0 <= k < i ==> Neutral(Program(days)[..i][k])
  {
    UptoIsPrefix(days);
    UptoIsNeutral(9, days);
    assert forall k :: 0 <= k < i ==> Program(days)[..i][k] == Upto(9, days)[k];
  }

  lemma StopKeepsVerdict(db: Db, days: seq<int>, i: nat)
    requires i <= Length(db, days) && i <= |Program(days)|
    ensures Stuck(Run(Program(days)[..i], db)) <==> Stuck(db)
  {
    if Stuck(db) {
      PrefixIsNeutral(days, i);
      NeutralRun(Program(days)[..i], db);
    } else {
      ProgramIsHarmless(days, i);
      NotStuckRun(Program(days)[..i], db);
    }
  }

  // ---- The listing order of the request-log tables ----

  lemma LogColumnsCommute(db: Db, a: int, b: int)
    ensures Apply(RenameLogColumn(a), Apply(RenameLogColumn(b), db)) == Apply(RenameLogColumn(b), Apply(RenameLogColumn(a), db))
  {
    if a != b {
      var left := Apply(RenameLogColumn(a), Apply(RenameLogColumn(b), db));
      var right := Apply(RenameLogColumn(b), Apply(RenameLogColumn(a), db));
      assert left.tables == right.tables;
    }
  }

  lemma {:induction false} LogColumnToFront(before: seq<int>, day: int, after: seq<int>, db: Db)
    ensures Run(LogColumns(before + [day] + after), db) == Run(LogColumns(before + after), Apply(RenameLogColumn(day), db))
  {
    var listing := before + [day] + after;
    if before == [] {
      assert listing[0] == day && listing[1..] == after && before + after == after;
    } else {
      var first := RenameLogColumn(before[0]);
      assert listing[0] == before[0] && listing[1..] == before[1..] + [day] + after;
      assert (before + after)[0] == before[0] && (before + after)[1..] == before[1..] + after;
      LogColumnToFront(before[1..], day, after, Apply(first, db));
      LogColumnsCommute(db, day, before[0]);
    }
  }

  lemma RestIsPermuted(a: seq<int>, b: seq<int>, k: nat)
    requires multiset(a) == multiset(b) && a != [] && k < |b| && b[k] == a[0]
    ensures multiset(a[1..]) == multiset(b[..k] + b[k + 1..])
  {
    assert a == [a[0]] + a[1..];
    assert multiset(a[1..]) == multiset(a) - multiset{a[0]};
    assert b == b[..k] + [a[0]] + b[k + 1..];
    assert multiset(b[..k] + b[k + 1..]) == multiset(b) - multiset{a[0]};
  }

  /** listTablesLike promises no order, and none is needed. */
  lemma {:induction false} LogColumnsInAnyOrder(a: seq<int>, b: seq<int>, db: Db)
    requires multiset(a) == multiset(b)
    ensures Run(LogColumns(a), db) == Run(LogColumns(b), db)
  {
    if a == [] {
      assert |multiset(b)| == 0;
    } else {
      assert a[0] in multiset(b);
      var k :| 0 <= k < |b| && b[k] == a[0];
      assert b == b[..k] + [a[0]] + b[k + 1..];
      RestIsPermuted(a, b, k);
      LogColumnToFront(b[..k], a[0], b[k + 1..], db);
      LogColumnsInAnyOrder(a[1..], b[..k] + b[k + 1..], Apply(RenameLogColumn(a[0]), db));
    }
  }

  lemma {:induction false} UptoIgnoresListing(p: nat, a: seq<int>, b: seq<int>)
    requires p <= 9
    ensures Upto(p, a) == Upto(p, b)
  {
    if p > 0 {
      UptoIgnoresListing(p - 1, a, b);
      PhaseIgnoresListing(p, a, b);
    }
  }

  lemma PhaseIgnoresListing(p: nat, a: seq<int>, b: seq<int>)
    requires p <= 9
    ensures Phase(p, a) == Phase(p, b)
  {
  }

  lemma LastPhasesInAnyOrder(db: Db, a: seq<int>, b: seq<int>)
    requires multiset(a) == multiset(b)
    ensures Run(From(10, a), db) == Run(From(10, b), db)
  {
    LastPhases(db, a);
    LastPhases(db, b);
    LogColumnsInAnyOrder(a, b, Apply(RebuildKeysV10, db));
  }

  const AFTER_LISTING := [Record(10), AddColumn(Some(11), ApiKeys, UserId, Null), Record(11)]

  lemma LastPhases(db: Db, days: seq<int>)
    ensures Run(From(10, days), db) == Run(AFTER_LISTING, Run(LogColumns(days), Apply(RebuildKeysV10, db)))
  {
    var log := LogColumns(days);
    FromUnfolds(10, days);
    FromUnfolds(11, days);
    assert From(12, days) == [];
    assert From(10, days) == [RebuildKeysV10] + (log + AFTER_LISTING);
    RunAppend([RebuildKeysV10], log + AFTER_LISTING, db);
    assert Run([RebuildKeysV10], db) == Apply(RebuildKeysV10, db);
    RunAppend(log, AFTER_LISTING, Apply(RebuildKeysV10, db));
  }

  /** A listing in another order leads Migrate to the same database. */
  lemma MigratedInAnyOrder(db: Db, a: seq<int>, b: seq<int>)
    requires multiset(a) == multiset(b)
    ensures Migrated(db, a) == Migrated(db, b)
  {
    UptoIgnoresListing(9, a, b);
    if !Stuck(db) {
      UptoThenFrom(9, a);
      UptoThenFrom(9, b);
      RunAppend(Upto(9, a), From(10, a), db);
      RunAppend(Upto(9, b), From(10, b), db);
      LastPhasesInAnyOrder(Run(Upto(9, a), db), a, b);
    }
  }

  // ---- Stopping and running again ----

  /**
   Stopping Migrate after any committed statement and running it again comes to what one whole run comes to,
   even if the second run finds the request-log tables listed in another order.
   */
  lemma SafeToStop(db: Db, days: seq<int>, again: seq<int>, i: nat)
    requires multiset(days) == multiset(again)
    requires i <= Length(db, days) && i <= |Program(days)|
    ensures Migrated(Run(Program(days)[..i], db), again) == Migrated(db, days)
  {
    MigratedInAnyOrder(Run(Program(days)[..i], db), days, again);
    UptoIsPrefix(days);
    StopKeepsVerdict(db, days, i);
    StopTwice(db, days, i, Length(db, days));
    assert Program(days)[..|Program(days)|] == Program(days);
  }

  /** A further run changes nothing, and fails if and only if the first one did. */
  lemma RunTwice(db: Db, days: seq<int>, again: seq<int>)
    requires multiset(days) == multiset(again)
    ensures Migrated(Migrated(db, days), again) == Migrated(db, days)
    ensures Stuck(Migrated(db, days)) <==> Stuck(db)
  {
    UptoIsPrefix(days);
    assert Program(days)[..|Program(days)|] == Program(days);
    SafeToStop(db, days, again, Length(db, days));
    StopKeepsVerdict(db, days, Length(db, days));
  }

  /** A run cut short: how it finds the request-log tables listed, and after how many statements it stops. */
  datatype Attempt = Attempt(days: seq<int>, stop: nat)
  {
    predicate InProgram() { stop <= |Program(days)| }

    function Leaves(db: Db): Db
      requires InProgram()
    {
      Run(Program(days)[..stop], db)
    }
  }

  predicate IsAttempt(db: Db, days: seq<int>, attempt: Attempt) {
    multiset(attempt.days) == multiset(days) && attempt.stop <= Length(db, attempt.days)
  }

  /** Runs cut short, one after the other. */
  function CutShort(attempts: seq<Attempt>, db: Db): Db
    requires forall i :: 0 <= i < |attempts| ==> attempts[i].InProgram()
  {
    if attempts == [] then db else CutShort(attempts[1..], attempts[0].Leaves(db))
  }

  /** However often Migrate is cut short, the run that completes reaches the same database. */
  lemma {:induction false} ManyStops(db: Db, days: seq<int>, attempts: seq<Attempt>)
    requires forall i :: 0 <= i < |attempts| ==> attempts[i].InProgram() && IsAttempt(db, days, attempts[i])
    ensures Migrated(CutShort(attempts, db), days) == Migrated(db, days)
    decreases |attempts|
  {
    if attempts != [] {
      var first := attempts[0];
      var next := first.Leaves(db);
      SafeToStop(db, first.days, days, first.stop);
      MigratedInAnyOrder(db, first.days, days);
      StopKeepsVerdict(db, first.days, first.stop);
      forall i | 0 <= i < |attempts[1..]| ensures attempts[1..][i].InProgram() && IsAttempt(next, days, attempts[1..][i]) {
        assert IsAttempt(db, days, attempts[i + 1]);
      }
      ManyStops(next, days, attempts[1..]);
    }
  }
}

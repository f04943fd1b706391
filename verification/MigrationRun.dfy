/** Migrate as the code that runs: one method per guarded step, in the order of the source. */
module MigrationRun {
  import opened Prelude
  import opened Migration
  import opened MigrationRestart
  import MigrationEffects
  import MigrationColumns

  lemma RunSnoc(done: seq<Statement>, st: Statement, db: Db)
    ensures Run(done + [st], db) == Apply(st, Run(done, db))
  {
    RunAppend(done, [st], db);
    RunOne(st, Run(done, db));
  }

  lemma {:induction false} LogColumnsSnoc(days: seq<int>, day: int)
    ensures LogColumns(days + [day]) == LogColumns(days) + [RenameLogColumn(day)]
  {
    if days == [] {
      assert days + [day] == [day] && [day][1..] == [];
      assert LogColumns([day]) == [RenameLogColumn(day)] + LogColumns([]);
    } else {
      assert (days + [day])[0] == days[0] && (days + [day])[1..] == days[1..] + [day];
      LogColumnsSnoc(days[1..], day);
    }
  }

  /** Phases whose version is recorded do nothing. */
  lemma RecordedEarly(p: nat, days: seq<int>, db: Db)
    requires (p == 2 && 3 in db.versions) || (p == 3 && 4 in db.versions) || (p == 5 && 6 in db.versions)
    ensures Run(Phase(p, days), db) == db
  {
    AllSettledIsIdentity(Phase(p, days), db);
  }

  lemma RecordedMiddle(p: nat, days: seq<int>, db: Db)
    requires (p == 7 && 7 in db.versions) || (p == 8 && 9 in db.versions) || (p == 9 && 10 in db.versions)
    ensures Run(Phase(p, days), db) == db
  {
    AllSettledIsIdentity(Phase(p, days), db);
  }

  lemma RecordedLate(p: nat, days: seq<int>, db: Db)
    requires (p == 11 && 11 in db.versions) || (p == 10 && 10 in db.versions)
    ensures Run(Phase(p, days), db) == db
  {
    LogColumnsAre(days);
    AllSettledIsIdentity(Phase(p, days), db);
  }

  lemma PhaseTen(days: seq<int>, done: seq<Statement>)
    requires done == [] + [RebuildKeysV10] + LogColumns(days) + [Record(10)]
    ensures done == Phase(10, days)
  {
    assert [] + [RebuildKeysV10] == [RebuildKeysV10];
  }

  class Database {
    var tables: map<TableName, Table>
    var versions: set<int>
    var lastUser: int

    function Abs(): Db
      reads this
    {
      Db(tables, versions, lastUser)
    }

    constructor (db: Db)
      ensures Abs() == db
    {
      tables, versions, lastUser := db.tables, db.versions, db.lastUser;
    }

    /** One more statement of a run that began in `db`. */
    ghost method Note(db: Db, done: seq<Statement>, st: Statement, before: Db) returns (more: seq<Statement>)
      requires Run(done, db) == before && Abs() == Apply(st, before)
      ensures more == done + [st] && Run(more, db) == Abs()
    {
      RunSnoc(done, st, db);
      more := done + [st];
    }

    // ---- Single statements ----

    method CreateIfMissing(t: TableName, cols: set<Column>, ghost db: Db, ghost done: seq<Statement>) returns (ghost more: seq<Statement>)
      requires Run(done, db) == Abs()
      modifies this
      ensures more == done + [CreateTable(t, cols)] && Run(more, db) == Abs()
    {
      ghost var before := Abs();
      if t !in tables {
        tables := tables[t := Table(cols, map[])];
      }
      more := Note(db, done, CreateTable(t, cols), before);
    }

    method RecordVersion(v: int, ghost db: Db, ghost done: seq<Statement>) returns (ghost more: seq<Statement>)
      requires Run(done, db) == Abs()
      modifies this`versions
      ensures more == done + [Record(v)] && Run(more, db) == Abs() && versions == old(versions) + {v}
    {
      ghost var before := Abs();
      versions := versions + {v};
      more := Note(db, done, Record(v), before);
    }

    /** ensureColumn, reached only where `until` is not recorded */
    method EnsureColumn(ghost until: Option<int>, t: TableName, c: Column, default: Value, ghost db: Db, ghost done: seq<Statement>)
      returns (ghost more: seq<Statement>)
      requires Run(done, db) == Abs() && !Over(until, Abs())
      modifies this`tables
      ensures more == done + [AddColumn(until, t, c, default)] && Run(more, db) == Abs()
    {
      ghost var before := Abs();
      if t in tables && c !in tables[t].cols {
        tables := tables[t := Added(tables[t], c, default)];
      }
      more := Note(db, done, AddColumn(until, t, c, default), before);
    }

    /** renameColumnIfNeeded */
    method RenameColumnIfNeeded(ghost until: Option<int>, t: TableName, c: Column, d: Column, ghost db: Db, ghost done: seq<Statement>)
      returns (ghost more: seq<Statement>)
      requires Run(done, db) == Abs() && !Over(until, Abs())
      modifies this`tables
      ensures more == done + [RenameColumn(until, t, c, d)] && Run(more, db) == Abs()
    {
      ghost var before := Abs();
      if !HasColumn(Abs(), t, d) {
        if HasColumn(Abs(), t, c) {
          tables := tables[t := Renamed(tables[t], c, d)];
        }
      }
      more := Note(db, done, RenameColumn(until, t, c, d), before);
    }

    /** dropColumnIfExists */
    method DropColumnIfExists(ghost until: Option<int>, t: TableName, c: Column, ghost db: Db, ghost done: seq<Statement>)
      returns (ghost more: seq<Statement>)
      requires Run(done, db) == Abs() && !Over(until, Abs())
      modifies this`tables
      ensures more == done + [DropColumn(until, t, c)] && Run(more, db) == Abs()
    {
      ghost var before := Abs();
      if HasColumn(Abs(), t, c) {
        tables := tables[t := Dropped(tables[t], c)];
      }
      more := Note(db, done, DropColumn(until, t, c), before);
    }

    // ---- The steps of Migrate ----

    /** renameAccountsToSubscriptionsEarly */
    method RenameAccountsToSubscriptionsEarly(ghost db: Db, ghost done: seq<Statement>) returns (ghost more: seq<Statement>)
      requires Run(done, db) == Abs()
      modifies this`tables
      ensures more == done + [DropEmptySubscriptions] + [RenameAccountsEarly] && Run(more, db) == Abs()
    {
      ghost var before := Abs();
      if Accounts in tables && Subscriptions in tables && tables[Subscriptions].rows == map[] {
        tables := tables - {Subscriptions};
      }
      more := Note(db, done, DropEmptySubscriptions, before);
      before := Abs();
      if Accounts in tables && Subscriptions !in tables {
        tables := (tables - {Accounts})[Subscriptions := tables[Accounts]];
      }
      more := Note(db, more, RenameAccountsEarly, before);
    }

    method CreateSchema()
      modifies this
      ensures Abs() == Run(PHASE0, old(Abs()))
    {
      ghost var db := Abs();
      ghost var done := CreateIfMissing(Subscriptions, SUBSCRIPTION_COLUMNS, db, []);
      done := CreateIfMissing(ApiKeys, KEY_COLUMNS, db, done);
      done := CreateIfMissing(Admin, ADMIN_COLUMNS, db, done);
      done := CreateIfMissing(Users, USER_COLUMNS, db, done);
      done := RenameAccountsToSubscriptionsEarly(db, done);
      assert done == PHASE0;
    }

    method MigrateTimeoutColumn(ghost days: seq<int>)
      modifies this
      ensures Abs() == Run(Phase(1, days), old(Abs()))
    {
      ghost var db := Abs();
      ghost var done := EnsureColumn(None, Subscriptions, QueueTimeoutSeconds, Int(0), db, []);
      done := RecordVersion(1, db, done);
      done := RecordVersion(2, db, done);
      assert done == Phase(1, days);
    }

    method MigrateTimeoutToSeconds(ghost days: seq<int>)
      modifies this
      ensures Abs() == Run(Phase(2, days), old(Abs()))
    {
      ghost var db := Abs();
      if 3 in versions {
        RecordedEarly(2, days, db);
      } else {
        if HasColumn(Abs(), Subscriptions, QueueTimeoutMs) {
          var table := tables[Subscriptions];
          tables := tables[Subscriptions := table.(rows := map id | id in table.rows :: Converted(table.rows[id]))];
        }
        ghost var done := Note(db, [], ConvertMilliseconds, db);
        done := RecordVersion(3, db, done);
        assert done == Phase(2, days);
      }
    }

    /** Secrets move to their plain columns, unless that is recorded. */
    method MigrateToPlaintext(ghost days: seq<int>)
      modifies this
      ensures Abs() == Run(Phase(3, days), old(Abs()))
      ensures if 4 in old(versions) then Abs() == old(Abs()) else MigrationColumns.NowPlain(old(Abs()), Abs())
    {
      ghost var db := Abs();
      MigrationColumns.PhaseThreeMakesPlain(db, days);
      if 4 in versions {
        RecordedEarly(3, days, db);
      } else {
        ghost var done := RenameColumnIfNeeded(Some(4), Subscriptions, CredentialsEncrypted, CredentialsJson, db, []);
        done := EnsureColumn(Some(4), Subscriptions, CredentialsJson, Int(0), db, done);
        done := RenameColumnIfNeeded(Some(4), Subscriptions, ProxyUrlEncrypted, ProxyUrl, db, done);
        done := EnsureColumn(Some(4), Subscriptions, ProxyUrl, Null, db, done);
        done := DropColumnIfExists(Some(4), Subscriptions, CredentialKeyId, db, done);
        done := RenameColumnIfNeeded(Some(4), Admin, TotpSecretEnc, TotpSecret, db, done);
        done := RecordVersion(4, db, done);
        assert done == Phase(3, days);
      }
    }

    /** rebuildAPIKeysWithoutAccountUnique: one transaction */
    method RebuildAPIKeysWithoutAccountUnique(ghost days: seq<int>)
      modifies this
      ensures Abs() == Run(Phase(4, days), old(Abs()))
    {
      RunOne(RebuildKeysV5, Abs());
      if 5 in versions { return; }
      if HasColumn(Abs(), ApiKeys, AccountId) {
        var table := tables[ApiKeys];
        var cols := COPIED_KEY_COLUMNS;
        assert COPIED_KEY_COLUMNS + {} == cols;
        if KeyPlaintext in table.cols {
          cols := cols + {KeyPlaintext};
        }
        tables := tables[ApiKeys := Rebuilt(table, AccountId, cols)];
      }
      versions := versions + {5};
    }

    /** migrateUsersFromAdmin; admin has at most the row 1. */
    method MigrateUsersFromAdmin(ghost days: seq<int>)
      modifies this
      ensures Abs() == Run(Phase(5, days), old(Abs()))
    {
      ghost var db := Abs();
      if 6 in versions {
        RecordedEarly(5, days, db);
      } else {
        if Users in tables && Admin in tables && tables[Users].rows == map[] && 1 in tables[Admin].rows {
          lastUser := lastUser + 1;
          tables := tables[Users := tables[Users].(rows := map[lastUser := UserFromAdmin(tables[Admin].rows[1])])];
        }
        ghost var done := Note(db, [], CopyAdmin, db);
        done := RecordVersion(6, db, done);
        assert done == Phase(5, days);
      }
    }

    method EnsurePlaintextColumn(ghost days: seq<int>)
      modifies this
      ensures Abs() == Run(Phase(6, days), old(Abs()))
    {
      ghost var db := Abs();
      ghost var done := EnsureColumn(None, ApiKeys, KeyPlaintext, Null, db, []);
      assert done == Phase(6, days);
    }

    /** dropUsageLogs */
    method DropUsageLogTable(ghost days: seq<int>)
      modifies this
      ensures Abs() == Run(Phase(7, days), old(Abs()))
    {
      ghost var db := Abs();
      if 7 in versions {
        RecordedMiddle(7, days, db);
      } else {
        tables := tables - {UsageLogs};
        ghost var done := Note(db, [], DropUsageLogs, db);
        done := RecordVersion(7, db, done);
        assert done == Phase(7, days);
      }
    }

    /** migrateAccountCreatedBy */
    method MigrateAccountCreatedBy(ghost days: seq<int>)
      modifies this
      ensures Abs() == Run(Phase(8, days), old(Abs()))
    {
      ghost var db := Abs();
      if 9 in versions {
        RecordedMiddle(8, days, db);
      } else {
        ghost var done := RecordVersion(9, db, []);
        assert done == Phase(8, days);
      }
    }

    /** The part of migrateAccountsToSubscriptions that brings the two tables together. */
    method MergeAccounts(ghost db: Db, ghost done: seq<Statement>) returns (ghost more: seq<Statement>)
      requires Run(done, db) == Abs() && 10 !in versions
      modifies this`tables
      ensures more == done + [RenameAccountsV10] + [CopyAccounts] + [DropAccounts] && Run(more, db) == Abs()
    {
      ghost var before := Abs();
      if Accounts in tables && Subscriptions !in tables {
        tables := (tables - {Accounts})[Subscriptions := tables[Accounts]];
      }
      more := Note(db, done, RenameAccountsV10, before);
      before := Abs();
      if Accounts in tables && Subscriptions in tables {
        tables := tables[Subscriptions := Merged(tables[Subscriptions], tables[Accounts])];
        more := Note(db, more, CopyAccounts, before);
        before := Abs();
        tables := tables - {Accounts};
        more := Note(db, more, DropAccounts, before);
      } else {
        more := Note(db, more, CopyAccounts, before);
        assert Accounts !in tables ==> tables - {Accounts} == tables;
        more := Note(db, more, DropAccounts, before);
      }
    }

    /** migrateRequestLogAccountColumns */
    method MigrateRequestLogAccountColumns(days: seq<int>, ghost db: Db, ghost done: seq<Statement>) returns (ghost more: seq<Statement>)
      requires Run(done, db) == Abs() && 10 !in versions
      modifies this`tables
      ensures more == done + LogColumns(days) && Run(more, db) == Abs()
    {
      more := done;
      var i := 0;
      assert LogColumns(days[..0]) == [] && done + [] == done;
      while i < |days|
        invariant i <= |days| && 10 !in versions
        invariant more == done + LogColumns(days[..i]) && Run(more, db) == Abs()
      {
        ghost var before := Abs();
        var log := RequestLog(days[i]);
        if HasColumn(Abs(), log, AccountId) && !HasColumn(Abs(), log, SubscriptionId) {
          tables := tables[log := Renamed(tables[log], AccountId, SubscriptionId)];
        }
        more := Note(db, more, RenameLogColumn(days[i]), before);
        assert days[..i + 1] == days[..i] + [days[i]];
        LogColumnsSnoc(days[..i], days[i]);
        i := i + 1;
      }
      assert days[..i] == days;
    }

    /** The part of migrateAccountsToSubscriptions before the rebuild of api_keys. */
    method MigrateAccounts(ghost days: seq<int>)
      modifies this
      ensures Abs() == Run(Phase(9, days), old(Abs()))
    {
      ghost var db := Abs();
      if 10 in versions {
        RecordedMiddle(9, days, db);
      } else {
        ghost var done := MergeAccounts(db, []);
        done := DropColumnIfExists(Some(10), Subscriptions, CreatedByUserId, db, done);
        assert done == Phase(9, days);
      }
    }

    /** The transaction of rebuildAPIKeysSubscriptionID. */
    method RebuildUnlessDone(hasAccount: bool)
      requires ApiKeys in tables && 10 !in versions && hasAccount == HasColumn(Abs(), ApiKeys, AccountId)
      modifies this`tables
      ensures Abs() == Apply(RebuildKeysV10, old(Abs()))
    {
      if hasAccount {
        tables := tables[ApiKeys := Rebuilt(tables[ApiKeys], AccountId, COPIED_KEY_COLUMNS + {KeyPlaintext})];
      }
    }

    /** That transaction, the request-log columns and the record of version 10. */
    method RebuildAndRecord(days: seq<int>, hasAccount: bool)
      requires ApiKeys in tables && 10 !in versions && hasAccount == HasColumn(Abs(), ApiKeys, AccountId)
      modifies this
      ensures Abs() == Run(Phase(10, days), old(Abs()))
    {
      ghost var db := Abs();
      RebuildUnlessDone(hasAccount);
      ghost var done := Note(db, [], RebuildKeysV10, db);
      done := MigrateRequestLogAccountColumns(days, db, done);
      done := RecordVersion(10, db, done);
      PhaseTen(days, done);
    }

    /** rebuildAPIKeysSubscriptionID and what follows it; an error when api_keys has no identity column. */
    method RebuildAPIKeysSubscriptionID(days: seq<int>) returns (ok: bool)
      requires ApiKeys in tables
      modifies this
      ensures ok <==> !Stuck(old(Abs()))
      ensures Abs() == if ok then Run(Phase(10, days), old(Abs())) else old(Abs())
    {
      ghost var db := Abs();
      if 10 in versions {
        RecordedLate(10, days, db);
        return true;
      }
      var hasAccount, hasSubscription := HasColumn(Abs(), ApiKeys, AccountId), HasColumn(Abs(), ApiKeys, SubscriptionId);
      if !hasAccount && !hasSubscription { return false; }
      RebuildAndRecord(days, hasAccount);
      ok := true;
    }

    /** migrateAPIKeyUsers */
    method MigrateAPIKeyUsers(ghost days: seq<int>)
      modifies this
      ensures Abs() == Run(Phase(11, days), old(Abs()))
    {
      ghost var db := Abs();
      if 11 in versions {
        RecordedLate(11, days, db);
      } else {
        ghost var done := EnsureColumn(Some(11), ApiKeys, UserId, Null, db, []);
        done := RecordVersion(11, db, done);
        assert done == Phase(11, days);
      }
    }

    /** The steps before the rebuild that can fail. */
    method MigrateUpto9(ghost days: seq<int>)
      modifies this
      ensures Abs() == Run(Upto(9, days), old(Abs()))
    {
      ghost var db := Abs();
      MigrateUpto4(days);
      MigrateUsersFromAdmin(days);
      MigratedPhase(5, days, db);
      EnsurePlaintextColumn(days);
      MigratedPhase(6, days, db);
      DropUsageLogTable(days);
      MigratedPhase(7, days, db);
      MigrateAccountCreatedBy(days);
      MigratedPhase(8, days, db);
      MigrateAccounts(days);
      MigratedPhase(9, days, db);
    }

    method MigrateUpto4(ghost days: seq<int>)
      modifies this
      ensures Abs() == Run(Upto(4, days), old(Abs()))
    {
      ghost var db := Abs();
      CreateSchema();
      MigrateTimeoutColumn(days);
      MigratedPhase(1, days, db);
      MigrateTimeoutToSeconds(days);
      MigratedPhase(2, days, db);
      MigrateToPlaintext(days);
      MigratedPhase(3, days, db);
      RebuildAPIKeysWithoutAccountUnique(days);
      MigratedPhase(4, days, db);
    }

    /** All the steps in turn, up to the one that may fail. */
    method MigrateSteps(days: seq<int>) returns (ok: bool)
      modifies this
      ensures ok <==> !Stuck(old(Abs()))
      ensures Abs() == Migrated(old(Abs()), days)
    {
      ghost var db := Abs();
      MigrateUpto9(days);
      UptoIsNeutral(9, days);
      NeutralRun(Upto(9, days), db);
      UptoReaches(days, db);
      ok := RebuildAPIKeysSubscriptionID(days);
      if !ok { return; }
      MigratedPhase(10, days, db);
      MigrateAPIKeyUsers(days);
      MigratedPhase(11, days, db);
      UptoThenFrom(11, days);
      assert From(12, days) == [] && Upto(11, days) + [] == Upto(11, days);
    }

    /** Migrate; `days` lists the request-log tables. */
    method Migrate(days: seq<int>) returns (ok: bool)
      modifies this
      ensures ok <==> !Stuck(old(Abs()))
      ensures Abs() == Migrated(old(Abs()), days)
      ensures MigrationColumns.SecretsKept(old(Abs()), Abs())
    {
      MigrationColumns.AllSecretsKept(Abs(), days);
      ok := MigrateSteps(days);
    }
  }

  lemma MigratedPhase(p: nat, days: seq<int>, db: Db)
    requires p >= 1
    ensures Run(Phase(p, days), Run(Upto(p - 1, days), db)) == Run(Upto(p, days), db)
  {
    RunAppend(Upto(p - 1, days), Phase(p, days), db);
  }

  /** api_keys is there when the second rebuild looks for it. */
  lemma UptoReaches(days: seq<int>, db: Db)
    ensures ApiKeys in Run(Upto(9, days), db).tables
  {
    MigrationEffects.UptoReachesPhase(9, days, db);
  }
}

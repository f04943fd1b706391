/** The repository's request-log operations: recording, pruning and the three usage queries. */
module UsageQueries {
  import opened Prelude
  import opened Aggregation
  import opened LogTime
  import opened UsageLogs

  datatype UsageRow = UsageRow(key: Key, usage: UsageTotals)

  datatype QueryError = UntilNotAfterSince

  // ---- Recording ----

  /** The tables, newest day first, with one more row; its table is made when it is missing. */
  function Recorded(tables: seq<DayTable>, day: int, r: LogRow): seq<DayTable> {
    if tables == [] then [DayTable(day, [r])]
    else if tables[0].day == day then [DayTable(day, tables[0].rows + [r])] + tables[1..]
    else if tables[0].day < day then [DayTable(day, [r])] + tables
    else [tables[0]] + Recorded(tables[1..], day, r)
  }

  /** Newest day first, one table a day. */
  ghost predicate NewestFirst(tables: seq<DayTable>) {
    forall i, j :: 0 <= i < j < |tables| ==> tables[i].day > tables[j].day
  }

  lemma {:induction false} RecordedKeepsOrder(tables: seq<DayTable>, day: int, r: LogRow, bound: int)
    requires NewestFirst(tables) && day < bound && forall i :: 0 <= i < |tables| ==> tables[i].day < bound
    ensures NewestFirst(Recorded(tables, day, r))
    ensures forall i :: 0 <= i < |Recorded(tables, day, r)| ==> Recorded(tables, day, r)[i].day < bound
  {
    if tables != [] && tables[0].day > day {
      RecordedKeepsOrder(tables[1..], day, r, tables[0].day);
    }
  }

  lemma {:induction false} RecordedStaysPlaced(tables: seq<DayTable>, offset: int, r: LogRow)
    requires Placed(tables, offset)
    ensures Placed(Recorded(tables, LocalDay(r.startedAt, offset), r), offset)
  {
    var day := LocalDay(r.startedAt, offset);
    if tables != [] && tables[0].day > day {
      assert Placed(tables[1..], offset);
      RecordedStaysPlaced(tables[1..], offset, r);
    }
  }

  /** A recorded request adds its cells to its own group and to no other. */
  lemma {:induction false} RecordAdds(tables: seq<DayTable>, day: int, r: LogRow, key: Grouping, w: Cells, k: Key)
    ensures SumFor(AllRows(Recorded(tables, day, r)), key, w, k) ==
            SumFor(AllRows(tables), key, w, k) + (if key(r) == Some(k) then w(r) else 0)
  {
    var after := Recorded(tables, day, r);
    AllRowsCons(after);
    if tables == [] {
      assert AllRows(after[1..]) == [] && [r] + [] == [r];
      assert SumFor([r][1..], key, w, k) == 0;
    } else {
      AllRowsCons(tables);
      SumForAppend(tables[0].rows, AllRows(tables[1..]), key, w, k);
      SumForAppend(after[0].rows, AllRows(after[1..]), key, w, k);
      assert SumFor([r][1..], key, w, k) == 0;
      if tables[0].day == day {
        assert after[1..] == tables[1..];
        SumForAppend(tables[0].rows, [r], key, w, k);
      } else if tables[0].day < day {
        assert after[1..] == tables;
      } else {
        assert after[1..] == Recorded(tables[1..], day, r);
        RecordAdds(tables[1..], day, r, key, w, k);
      }
    }
  }

  // ---- The aggregate queries ----

  /** The result set of the two-level query over some tables, one row a group. */
  function QueryGroups(tables: seq<seq<LogRow>>, key: Grouping): map<Key, UsageTotals> {
    map k | k in GroupParts(Parts(tables, key, Of(Requests))) ::
      UsageTotals(In(GroupParts(Parts(tables, key, Of(Requests))), k), In(GroupParts(Parts(tables, key, Of(Input))), k),
                  In(GroupParts(Parts(tables, key, Of(Output))), k), In(GroupParts(Parts(tables, key, Of(CacheRead))), k),
                  In(GroupParts(Parts(tables, key, Of(CacheCreation))), k), In(GroupParts(Parts(tables, key, Of(Tokens))), k))
  }

  lemma QueryGroupsAreFlat(tables: seq<seq<LogRow>>, key: Grouping, k: Key)
    ensures k in QueryGroups(tables, key) <==> HasKey(Flat(tables), key, k)
    ensures k in QueryGroups(tables, key) ==> QueryGroups(tables, key)[k] == TotalsFor(Flat(tables), key, k)
  {
    TwoLevelIsFlat(tables, key, Of(Requests), k);
    TwoLevelIsFlat(tables, key, Of(Input), k);
    TwoLevelIsFlat(tables, key, Of(Output), k);
    TwoLevelIsFlat(tables, key, Of(CacheRead), k);
    TwoLevelIsFlat(tables, key, Of(CacheCreation), k);
    TwoLevelIsFlat(tables, key, Of(Tokens), k);
  }

  /** The query over the tables of the range's days, in terms of all rows. */
  ghost predicate Answers(groups: map<Key, UsageTotals>, rows: seq<LogRow>, key: Grouping) {
    forall k :: (k in groups <==> HasKey(rows, key, k)) && (k in groups ==> groups[k] == TotalsFor(rows, key, k))
  }

  lemma QueryAnswers(tables: seq<DayTable>, q: Range, offset: int, key: Grouping)
    requires Placed(tables, offset) && Within(key, q)
    ensures Answers(QueryGroups(RowsOf(Keep(tables, DaysOf(q, offset))), key), AllRows(tables), key)
  {
    var kept := Keep(tables, DaysOf(q, offset));
    forall k: Key
      ensures k in QueryGroups(RowsOf(kept), key) <==> HasKey(AllRows(tables), key, k)
      ensures k in QueryGroups(RowsOf(kept), key) ==> QueryGroups(RowsOf(kept), key)[k] == TotalsFor(AllRows(tables), key, k)
    {
      QueryGroupsAreFlat(RowsOf(kept), key, k);
      SkippingChangesNothing(tables, q, offset, key, k);
    }
  }

  lemma NoRowsNoTotals(rows: seq<LogRow>, key: Grouping, k: Key)
    requires !HasKey(rows, key, k)
    ensures TotalsFor(rows, key, k) == ZERO
  {
    NoRowsNoSum(rows, key, Of(Requests), k);
    NoRowsNoSum(rows, key, Of(Input), k);
    NoRowsNoSum(rows, key, Of(Output), k);
    NoRowsNoSum(rows, key, Of(CacheRead), k);
    NoRowsNoSum(rows, key, Of(CacheCreation), k);
    NoRowsNoSum(rows, key, Of(Tokens), k);
  }

  /** A group with rows has requests, so it is not all zero. */
  lemma {:induction false} RowsAreRequests(rows: seq<LogRow>, key: Grouping, k: Key)
    ensures SumFor(rows, key, Of(Requests), k) >= 0
    ensures HasKey(rows, key, k) ==> SumFor(rows, key, Of(Requests), k) > 0
  {
    if rows != [] {
      RowsAreRequests(rows[1..], key, k);
      HasKeyCons(rows, key, k);
    }
  }

  // ---- What a breakdown is, and that it adds up ----

  ghost predicate FlatTotals(out: seq<UsageRow>, rows: seq<LogRow>, key: Grouping) {
    forall i :: 0 <= i < |out| ==> out[i].usage == TotalsFor(rows, key, out[i].key)
  }

  ghost predicate Distinct(out: seq<UsageRow>) { forall i, j :: 0 <= i < j < |out| ==> out[i].key != out[j].key }

  ghost predicate Covers(out: seq<UsageRow>, rows: seq<LogRow>, key: Grouping) {
    forall k :: HasKey(rows, key, k) ==> k in KeysOf(out)
  }

  /** One row a group with the group's flat totals, and a row for every group there is. */
  ghost predicate Breakdown(out: seq<UsageRow>, rows: seq<LogRow>, key: Grouping) {
    FlatTotals(out, rows, key) && Distinct(out) && Covers(out, rows, key)
  }

  function KeysOf(out: seq<UsageRow>): set<Key> { set i | 0 <= i < |out| :: out[i].key }

  function SumRows(out: seq<UsageRow>, c: Column): int {
    if out == [] then 0 else Get(out[0].usage, c) + SumRows(out[1..], c)
  }

  lemma {:induction false} RowsAddUp(out: seq<UsageRow>, rows: seq<LogRow>, key: Grouping, c: Column, seen: set<Key>)
    requires forall i :: 0 <= i < |out| ==> out[i].usage == TotalsFor(rows, key, out[i].key) && out[i].key !in seen
    requires forall i, j :: 0 <= i < j < |out| ==> out[i].key != out[j].key
    ensures SumExcept(rows, key, Of(c), seen) == SumRows(out, c) + SumExcept(rows, key, Of(c), seen + KeysOf(out))
  {
    if out == [] {
      assert seen + KeysOf(out) == seen;
    } else {
      var rest := out[1..];
      assert forall i :: 0 <= i < |rest| ==> rest[i] == out[i + 1];
      SumExceptOne(rows, key, Of(c), seen, out[0].key);
      RowsAddUp(rest, rows, key, c, seen + {out[0].key});
      KeysOfCons(out);
      assert seen + {out[0].key} + KeysOf(rest) == seen + KeysOf(out);
      assert Get(out[0].usage, c) == SumFor(rows, key, Of(c), out[0].key);
    }
  }

  lemma KeysOfCons(out: seq<UsageRow>)
    requires out != []
    ensures KeysOf(out) == {out[0].key} + KeysOf(out[1..])
  {
    forall k ensures k in KeysOf(out) <==> k in {out[0].key} + KeysOf(out[1..]) {
      if k in KeysOf(out) {
        var i :| 0 <= i < |out| && out[i].key == k;
        if i > 0 { assert out[1..][i - 1].key == k; }
      }
      if k in KeysOf(out[1..]) {
        var i :| 0 <= i < |out[1..]| && out[1..][i].key == k;
        assert out[i + 1].key == k;
      }
    }
  }

  /** The rows of a breakdown sum to the grand totals. */
  lemma BreakdownSums(out: seq<UsageRow>, rows: seq<LogRow>, key: Grouping, c: Column)
    requires Breakdown(out, rows, key)
    ensures SumRows(out, c) == Get(TotalsAll(rows, key), c)
  {
    RowsAddUp(out, rows, key, c, {});
    SumExceptNone(rows, key, Of(c));
    assert {} + KeysOf(out) == KeysOf(out);
    SumExceptAll(rows, key, Of(c), KeysOf(out));
  }

  // ---- Scanning a result set ----

  ghost predicate GrandSoFar(grand: UsageTotals, rows: seq<LogRow>, key: Grouping, done: set<Key>) {
    forall c: Column :: Get(grand, c) + SumExcept(rows, key, Of(c), done) == SumAll(rows, key, Of(c))
  }

  lemma GrandStarts(rows: seq<LogRow>, key: Grouping)
    ensures GrandSoFar(ZERO, rows, key, {})
  {
    forall c: Column ensures Get(ZERO, c) + SumExcept(rows, key, Of(c), {}) == SumAll(rows, key, Of(c)) {
      SumExceptNone(rows, key, Of(c));
    }
  }

  lemma GrandGrows(grand: UsageTotals, rows: seq<LogRow>, key: Grouping, done: set<Key>, k: Key)
    requires GrandSoFar(grand, rows, key, done) && k !in done
    ensures GrandSoFar(Plus(grand, TotalsFor(rows, key, k)), rows, key, done + {k})
  {
    var after := Plus(grand, TotalsFor(rows, key, k));
    forall c: Column ensures Get(after, c) + SumExcept(rows, key, Of(c), done + {k}) == SumAll(rows, key, Of(c)) {
      SumExceptOne(rows, key, Of(c), done, k);
    }
  }

  lemma GrandEnds(grand: UsageTotals, rows: seq<LogRow>, key: Grouping, done: set<Key>)
    requires GrandSoFar(grand, rows, key, done) && forall k :: HasKey(rows, key, k) ==> k in done
    ensures grand == TotalsAll(rows, key)
  {
    forall c: Column ensures Get(grand, c) == SumAll(rows, key, Of(c)) {
      SumExceptAll(rows, key, Of(c), done);
    }
    assert forall c: Column :: Get(grand, c) == Get(TotalsAll(rows, key), c);
    assert Get(grand, Requests) == grand.requests && Get(grand, Input) == grand.input && Get(grand, Output) == grand.output;
    assert Get(grand, CacheRead) == grand.cacheRead && Get(grand, CacheCreation) == grand.cacheCreation && Get(grand, Tokens) == grand.total;
  }
}

/** Request logs in per-day tables, and the usage queries over them. */
module UsageLogs {
  import opened Prelude
  import opened Aggregation
  import opened LogTime

  datatype UsageTotals = UsageTotals(requests: int, input: int, output: int, cacheRead: int, cacheCreation: int, total: int)

  const ZERO := UsageTotals(0, 0, 0, 0, 0, 0)

  function Get(u: UsageTotals, c: Column): int {
    match c
    case Requests => u.requests
    case Input => u.input
    case Output => u.output
    case CacheRead => u.cacheRead
    case CacheCreation => u.cacheCreation
    case Tokens => u.total
  }

  function Plus(a: UsageTotals, b: UsageTotals): UsageTotals {
    UsageTotals(a.requests + b.requests, a.input + b.input, a.output + b.output, a.cacheRead + b.cacheRead,
                a.cacheCreation + b.cacheCreation, a.total + b.total)
  }

  /** The totals of one group, filtered and summed row by row over all tables at once. */
  function TotalsFor(rows: seq<LogRow>, key: Grouping, k: Key): UsageTotals {
    UsageTotals(SumFor(rows, key, Of(Requests), k), SumFor(rows, key, Of(Input), k), SumFor(rows, key, Of(Output), k),
                SumFor(rows, key, Of(CacheRead), k), SumFor(rows, key, Of(CacheCreation), k), SumFor(rows, key, Of(Tokens), k))
  }

  function TotalsAll(rows: seq<LogRow>, key: Grouping): UsageTotals {
    UsageTotals(SumAll(rows, key, Of(Requests)), SumAll(rows, key, Of(Input)), SumAll(rows, key, Of(Output)),
                SumAll(rows, key, Of(CacheRead)), SumAll(rows, key, Of(CacheCreation)), SumAll(rows, key, Of(Tokens)))
  }

  // ---- What the queries select ----

  datatype Range = Range(since: Instant, until: Instant)

  predicate InRange(r: LogRow, q: Range) { !TextLess(r.startedAt, q.since) && TextLess(r.startedAt, q.until) }

  function BySubscription(q: Range): Grouping {
    r => if InRange(r, q) && r.subscription.Some? then Some(Id(r.subscription.value)) else None
  }

  /** COALESCE(l.user_id, k.user_id), with `keys` the api_keys table. */
  function UserOf(r: LogRow, keys: map<int, Option<int>>): Key {
    if r.user.Some? then Id(r.user.value)
    else if r.apiKey.Some? && r.apiKey.value in keys && keys[r.apiKey.value].Some? then Id(keys[r.apiKey.value].value)
    else Null
  }

  function ByUser(q: Range, keys: map<int, Option<int>>, only: Option<int>): Grouping {
    r => if InRange(r, q) && r.subscription.Some? && (only.None? || r.subscription == only) then Some(UserOf(r, keys)) else None
  }

  // ---- What one row adds ----

  /** The totals of a group with one more request: each count the row carries, and its total or else input plus output. */
  predicate OneMore(before: UsageTotals, after: UsageTotals, r: LogRow) {
    && after.requests == before.requests + 1
    && after.input == before.input + (if r.input.Some? then r.input.value else 0)
    && after.output == before.output + (if r.output.Some? then r.output.value else 0)
    && after.cacheRead == before.cacheRead + (if r.cacheRead.Some? then r.cacheRead.value else 0)
    && after.cacheCreation == before.cacheCreation + (if r.cacheCreation.Some? then r.cacheCreation.value else 0)
    && after.total == before.total + (if r.total.Some? then r.total.value
                                      else (if r.input.Some? then r.input.value else 0) + (if r.output.Some? then r.output.value else 0))
  }

  lemma RowAddsTo(rows: seq<LogRow>, r: LogRow, key: Grouping, c: Column, k: Key)
    ensures SumFor(rows + [r], key, Of(c), k) == SumFor(rows, key, Of(c), k) + (if key(r) == Some(k) then Cell(r, c) else 0)
  {
    SumForAppend(rows, [r], key, Of(c), k);
    assert SumFor([r][1..], key, Of(c), k) == 0;
  }

  lemma RowAddsCells(rows: seq<LogRow>, r: LogRow, key: Grouping, k: Key)
    ensures if key(r) == Some(k) then OneMore(TotalsFor(rows, key, k), TotalsFor(rows + [r], key, k), r)
            else TotalsFor(rows + [r], key, k) == TotalsFor(rows, key, k)
  {
    RowAddsTo(rows, r, key, Requests, k);
    RowAddsTo(rows, r, key, Input, k);
    RowAddsTo(rows, r, key, Output, k);
    RowAddsTo(rows, r, key, CacheRead, k);
    RowAddsTo(rows, r, key, CacheCreation, k);
    RowAddsTo(rows, r, key, Tokens, k);
  }

  /** A row in range counts for its subscription, and for no other. */
  lemma RowAddsToSubscription(rows: seq<LogRow>, r: LogRow, q: Range, k: Key)
    requires InRange(r, q) && r.subscription.Some?
    ensures var before, after := TotalsFor(rows, BySubscription(q), k), TotalsFor(rows + [r], BySubscription(q), k);
            if k == Id(r.subscription.value) then OneMore(before, after, r) else after == before
  {
    RowAddsCells(rows, r, BySubscription(q), k);
  }

  /** It counts for its own user, else for its key's user, else for nobody's group; with a filter only for that subscription. */
  lemma RowAddsToUser(rows: seq<LogRow>, r: LogRow, q: Range, keys: map<int, Option<int>>, only: Option<int>, k: Key)
    requires InRange(r, q) && r.subscription.Some?
    ensures var u := if r.user.Some? then Id(r.user.value)
                     else if r.apiKey.Some? && r.apiKey.value in keys && keys[r.apiKey.value].Some? then Id(keys[r.apiKey.value].value)
                     else Null;
            var before, after := TotalsFor(rows, ByUser(q, keys, only), k), TotalsFor(rows + [r], ByUser(q, keys, only), k);
            if k == u && (only == None || only == r.subscription) then OneMore(before, after, r) else after == before
  {
    RowAddsCells(rows, r, ByUser(q, keys, only), k);
  }

  // ---- Tables by day ----

  datatype DayTable = DayTable(day: int, rows: seq<LogRow>)

  function RowsOf(tables: seq<DayTable>): seq<seq<LogRow>> {
    if tables == [] then [] else [tables[0].rows] + RowsOf(tables[1..])
  }

  /** Every row of every table. */
  function AllRows(tables: seq<DayTable>): seq<LogRow> { Flat(RowsOf(tables)) }

  function Keep(tables: seq<DayTable>, wanted: int -> bool): seq<DayTable> {
    if tables == [] then []
    else if wanted(tables[0].day) then [tables[0]] + Keep(tables[1..], wanted)
    else Keep(tables[1..], wanted)
  }

  /** Each row is in the table of its local start day. */
  ghost predicate Placed(tables: seq<DayTable>, offset: int) {
    forall i, j :: 0 <= i < |tables| && 0 <= j < |tables[i].rows| ==> LocalDay(tables[i].rows[j].startedAt, offset) == tables[i].day
  }

  /** The days a query looks at. */
  function DaysOf(q: Range, offset: int): int -> bool { d => LocalDay(q.since, offset) <= d <= LocalDay(q.until, offset) }

  lemma AllRowsCons(tables: seq<DayTable>)
    requires tables != []
    ensures AllRows(tables) == tables[0].rows + AllRows(tables[1..])
  {
    assert RowsOf(tables)[0] == tables[0].rows && RowsOf(tables)[1..] == RowsOf(tables[1..]);
  }

  /** Leaving out tables none of whose rows pass the WHERE clause changes no sum. */
  lemma {:induction false} KeepSums(tables: seq<DayTable>, wanted: int -> bool, key: Grouping, w: Cells, k: Key)
    requires forall i, j :: 0 <= i < |tables| && !wanted(tables[i].day) && 0 <= j < |tables[i].rows| ==> key(tables[i].rows[j]) == None
    ensures SumFor(AllRows(Keep(tables, wanted)), key, w, k) == SumFor(AllRows(tables), key, w, k)
    ensures SumAll(AllRows(Keep(tables, wanted)), key, w) == SumAll(AllRows(tables), key, w)
    ensures HasKey(AllRows(Keep(tables, wanted)), key, k) <==> HasKey(AllRows(tables), key, k)
  {
    if tables != [] {
      var rest := tables[1..];
      forall i, j | 0 <= i < |rest| && !wanted(rest[i].day) && 0 <= j < |rest[i].rows| ensures key(rest[i].rows[j]) == None {
        assert rest[i] == tables[i + 1];
      }
      KeepSums(rest, wanted, key, w, k);
      AllRowsCons(tables);
      SumForAppend(tables[0].rows, AllRows(rest), key, w, k);
      SumAllAppend(tables[0].rows, AllRows(rest), key, w);
      HasKeyAppend(tables[0].rows, AllRows(rest), key, k);
      if wanted(tables[0].day) {
        var kept := Keep(tables, wanted);
        assert kept[1..] == Keep(rest, wanted);
        AllRowsCons(kept);
        SumForAppend(kept[0].rows, AllRows(kept[1..]), key, w, k);
        SumAllAppend(kept[0].rows, AllRows(kept[1..]), key, w);
        HasKeyAppend(kept[0].rows, AllRows(kept[1..]), key, k);
      } else {
        NothingToSum(tables[0].rows, key, w, k);
      }
    }
  }

  /** A row the query selects started on one of the days it looks at. */
  lemma SelectedDay(r: LogRow, q: Range, offset: int)
    requires InRange(r, q)
    ensures LocalDay(q.since, offset) <= LocalDay(r.startedAt, offset) <= LocalDay(q.until, offset)
  {
    DaysInOrder(q.since, r.startedAt, offset);
    DaysInOrder(r.startedAt, q.until, offset);
  }

  /** A WHERE clause that asks for the range. */
  ghost predicate Within(key: Grouping, q: Range) { forall r :: key(r).Some? ==> InRange(r, q) }

  /** Tables outside the range's days have nothing for the query. */
  lemma SkippedTablesAreEmpty(tables: seq<DayTable>, q: Range, offset: int, wanted: int -> bool, key: Grouping)
    requires Placed(tables, offset) && Within(key, q)
    requires forall d :: LocalDay(q.since, offset) <= d <= LocalDay(q.until, offset) ==> wanted(d)
    ensures forall i, j :: 0 <= i < |tables| && !wanted(tables[i].day) && 0 <= j < |tables[i].rows| ==> key(tables[i].rows[j]) == None
  {
    forall i, j | 0 <= i < |tables| && !wanted(tables[i].day) && 0 <= j < |tables[i].rows| ensures key(tables[i].rows[j]) == None {
      var r := tables[i].rows[j];
      if InRange(r, q) { SelectedDay(r, q, offset); }
    }
  }

  /** Skipping the tables of other days changes no sum. */
  lemma SkippingChangesNothing(tables: seq<DayTable>, q: Range, offset: int, key: Grouping, k: Key)
    requires Placed(tables, offset) && Within(key, q)
    ensures TotalsFor(AllRows(Keep(tables, DaysOf(q, offset))), key, k) == TotalsFor(AllRows(tables), key, k)
    ensures TotalsAll(AllRows(Keep(tables, DaysOf(q, offset))), key) == TotalsAll(AllRows(tables), key)
    ensures HasKey(AllRows(Keep(tables, DaysOf(q, offset))), key, k) <==> HasKey(AllRows(tables), key, k)
  {
    SkippedTablesAreEmpty(tables, q, offset, DaysOf(q, offset), key);
    KeptTotals(tables, DaysOf(q, offset), key, k);
  }

  lemma KeptTotals(tables: seq<DayTable>, wanted: int -> bool, key: Grouping, k: Key)
    requires forall i, j :: 0 <= i < |tables| && !wanted(tables[i].day) && 0 <= j < |tables[i].rows| ==> key(tables[i].rows[j]) == None
    ensures TotalsFor(AllRows(Keep(tables, wanted)), key, k) == TotalsFor(AllRows(tables), key, k)
    ensures TotalsAll(AllRows(Keep(tables, wanted)), key) == TotalsAll(AllRows(tables), key)
    ensures HasKey(AllRows(Keep(tables, wanted)), key, k) <==> HasKey(AllRows(tables), key, k)
  {
    forall c: Column
      ensures SumFor(AllRows(Keep(tables, wanted)), key, Of(c), k) == SumFor(AllRows(tables), key, Of(c), k)
      ensures SumAll(AllRows(Keep(tables, wanted)), key, Of(c)) == SumAll(AllRows(tables), key, Of(c))
    {
      KeepSums(tables, wanted, key, Of(c), k);
    }
    KeepSums(tables, wanted, key, Of(Requests), k);
  }

  /** The tables CleanupRequestLogTables leaves. */
  function Retained(tables: seq<DayTable>, oldest: int): seq<DayTable> { Keep(tables, d => d >= oldest) }

  /** Pruning changes no total of a range that starts on or after the oldest retained day. */
  lemma PruningChangesNothing(tables: seq<DayTable>, oldest: int, q: Range, offset: int, key: Grouping, k: Key)
    requires Placed(tables, offset) && Within(key, q) && LocalDay(q.since, offset) >= oldest
    ensures TotalsFor(AllRows(Retained(tables, oldest)), key, k) == TotalsFor(AllRows(tables), key, k)
    ensures TotalsAll(AllRows(Retained(tables, oldest)), key) == TotalsAll(AllRows(tables), key)
    ensures HasKey(AllRows(Retained(tables, oldest)), key, k) <==> HasKey(AllRows(tables), key, k)
  {
    SkippedTablesAreEmpty(tables, q, offset, d => d >= oldest, key);
    KeptTotals(tables, d => d >= oldest, key, k);
  }

  // ---- The breakdowns agree ----

  /** Grand totals by user are grand totals by subscription. */
  lemma UserTotalsAreSubscriptionTotals(rows: seq<LogRow>, q: Range, keys: map<int, Option<int>>)
    ensures TotalsAll(rows, ByUser(q, keys, None)) == TotalsAll(rows, BySubscription(q))
  {
    forall c: Column ensures SumAll(rows, ByUser(q, keys, None), Of(c)) == SumAll(rows, BySubscription(q), Of(c)) {
      SameRowsSameSum(rows, ByUser(q, keys, None), BySubscription(q), Of(c));
    }
  }

  /** Filtered by subscription `s`, the totals by user are the row of `s`. */
  lemma FilteredUserTotalsAreTheRow(rows: seq<LogRow>, q: Range, keys: map<int, Option<int>>, s: int)
    ensures TotalsAll(rows, ByUser(q, keys, Some(s))) == TotalsFor(rows, BySubscription(q), Id(s))
  {
    forall c: Column ensures SumAll(rows, ByUser(q, keys, Some(s)), Of(c)) == SumFor(rows, BySubscription(q), Of(c), Id(s)) {
      FilteredSum(rows, BySubscription(q), ByUser(q, keys, Some(s)), Of(c), Id(s));
    }
  }

  /** Adjacent ranges count each request once: no row is lost or counted twice at the border. */
  lemma AdjacentRangesAdd(rows: seq<LogRow>, a: Instant, b: Instant, c: Instant, s: int, w: Column)
    requires !TextLess(b, a) && !TextLess(c, b)
    ensures SumFor(rows, BySubscription(Range(a, c)), Of(w), Id(s)) ==
            SumFor(rows, BySubscription(Range(a, b)), Of(w), Id(s)) + SumFor(rows, BySubscription(Range(b, c)), Of(w), Id(s))
  {
    forall r: LogRow
      ensures InRange(r, Range(a, c)) <==> InRange(r, Range(a, b)) || InRange(r, Range(b, c))
      ensures !(InRange(r, Range(a, b)) && InRange(r, Range(b, c)))
    {
      if TextLess(r.startedAt, a) { TextLessUpTo(r.startedAt, a, b); }
      if TextLess(r.startedAt, b) { TextLessUpTo(r.startedAt, b, c); }
    }
    SplitSum(rows, BySubscription(Range(a, c)), BySubscription(Range(a, b)), BySubscription(Range(b, c)), Of(w), Id(s));
  }

  /**
   A range of whole seconds holds the requests started in it, except those started within a second after one of
   its ends: after the start they are left out, after the end they are let in.
   */
  lemma InRangeIff(r: LogRow, q: Range)
    requires q.since % NANOS == 0 && q.until % NANOS == 0 && q.since < q.until
    ensures (InRange(r, q) <==> q.since <= r.startedAt < q.until) <==>
            !(q.since < r.startedAt < q.since + NANOS) && !(q.until < r.startedAt < q.until + NANOS)
  {
    TextLessIff(r.startedAt, q.since);
    TextLessIff(r.startedAt, q.until);
  }

  /** A request started within a second after midnight is left out of its own day and counted in the day before. */
  lemma FirstSecondCountsForTheDayBefore(r: LogRow)
    requires r.startedAt == 500_000_000
    ensures !InRange(r, Range(0, 86_400_000_000_000)) && InRange(r, Range(-86_400_000_000_000, 0))
  {
    TextOrderIsNotTimeOrder();
  }
}

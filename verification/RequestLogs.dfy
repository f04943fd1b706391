/** The repository of request logs: the tables it keeps and the operations that change and query them. */
module RequestLogs {
  import opened Prelude
  import opened Aggregation
  import opened LogTime
  import opened UsageLogs
  import opened UsageQueries

  /** Result rows for `ids` out of `byID`, in that order, all-zero ones left out where `dropZero`. */
  ghost predicate Lists(out: seq<UsageRow>, ids: seq<int>, byID: map<int, UsageTotals>, dropZero: bool) {
    && (forall i :: 0 <= i < |out| ==> out[i].key.Id? && out[i].key.id in ids && out[i].key.id in byID && out[i].usage == byID[out[i].key.id])
    && (dropZero ==> forall i :: 0 <= i < |out| ==> out[i].usage != ZERO)
    && (!dropZero ==> |out| == |ids| && forall i :: 0 <= i < |ids| ==> out[i].key == Id(ids[i]))
    && (forall i, j :: 0 <= i < j < |out| ==> out[i].key != out[j].key)
    && (forall j :: 0 <= j < |ids| ==> ids[j] in byID && (Id(ids[j]) in KeysOf(out) || (dropZero && byID[ids[j]] == ZERO)))
  }

  function IndexOf(ids: seq<int>, id: int): (i: nat)
    requires id in ids
    ensures i < |ids| && ids[i] == id
  {
    if ids[0] == id then 0 else 1 + IndexOf(ids[1..], id)
  }

  /** The order of result rows: the known ids as listed, then the others by id, then the unassigned group. */
  predicate Before(a: Key, b: Key, known: seq<int>) {
    && a.Id?
    && (b.Id? ==> if a.id in known then b.id in known ==> IndexOf(known, a.id) < IndexOf(known, b.id)
                  else b.id !in known && a.id < b.id)
  }

  ghost predicate InOrder(out: seq<UsageRow>, known: seq<int>) {
    forall i, j :: 0 <= i < j < |out| ==> Before(out[i].key, out[j].key, known)
  }

  lemma {:induction false} IndexOfAppend(ids: seq<int>, more: int, id: int)
    requires id in ids
    ensures IndexOf(ids + [more], id) == IndexOf(ids, id)
    decreases |ids|
  {
    if ids[0] != id {
      assert (ids + [more])[1..] == ids[1..] + [more];
      IndexOfAppend(ids[1..], more, id);
    }
  }

  lemma {:induction false} IndexOfLast(ids: seq<int>, id: int)
    requires id !in ids
    ensures IndexOf(ids + [id], id) == |ids|
    decreases |ids|
  {
    if ids != [] {
      assert (ids + [id])[1..] == ids[1..] + [id];
      IndexOfLast(ids[1..], id);
    }
  }

  lemma OrderAppend(a: seq<UsageRow>, b: seq<UsageRow>, known: seq<int>)
    requires InOrder(a, known) && InOrder(b, known)
    requires forall i, j :: 0 <= i < |a| && 0 <= j < |b| ==> Before(a[i].key, b[j].key, known)
    ensures InOrder(a + b, known)
  {
    var c := a + b;
    forall i, j | 0 <= i < j < |c| ensures Before(c[i].key, c[j].key, known) {
      if j < |a| { assert Before(a[i].key, a[j].key, known); }
      else if i >= |a| { assert Before(b[i - |a|].key, b[j - |a|].key, known); }
      else { assert Before(a[i].key, b[j - |a|].key, known); }
    }
  }

  /** One more listed id keeps the order. */
  lemma OrderNext(out: seq<UsageRow>, ids: seq<int>, row: UsageRow)
    requires InOrder(out, ids) && (forall i :: 0 <= i < |out| ==> out[i].key.Id? && out[i].key.id in ids)
    requires row.key.Id? && row.key.id !in ids
    ensures InOrder(out + [row], ids + [row.key.id]) && InOrder(out, ids + [row.key.id])
  {
    var id := row.key.id;
    IndexOfLast(ids, id);
    forall i | 0 <= i < |out| ensures IndexOf(ids + [id], out[i].key.id) == IndexOf(ids, out[i].key.id) {
      IndexOfAppend(ids, id, out[i].key.id);
    }
    forall i, j | 0 <= i < j < |out| ensures Before(out[i].key, out[j].key, ids + [id]) {
      assert Before(out[i].key, out[j].key, ids);
    }
    OrderAppend(out, [row], ids + [id]);
  }

  lemma KeysOfAppend(out: seq<UsageRow>, more: seq<UsageRow>)
    ensures KeysOf(out + more) == KeysOf(out) + KeysOf(more)
  {
    var both := out + more;
    forall k ensures k in KeysOf(both) <==> k in KeysOf(out) + KeysOf(more) {
      if k in KeysOf(both) {
        var i :| 0 <= i < |both| && both[i].key == k;
        if i < |out| { assert out[i].key == k; } else { assert more[i - |out|].key == k; }
      }
      if k in KeysOf(out) { var i :| 0 <= i < |out| && out[i].key == k; assert both[i].key == k; }
      if k in KeysOf(more) { var i :| 0 <= i < |more| && more[i].key == k; assert both[|out| + i].key == k; }
    }
  }

  ghost predicate Ascending(ids: seq<int>) { forall i, j :: 0 <= i < j < |ids| ==> ids[i] < ids[j] }

  /** sort.Slice over the members of a set. */
  method SortIds(s: set<int>) returns (ids: seq<int>)
    ensures Ascending(ids) && forall id :: id in ids <==> id in s
  {
    ids := [];
    var left := s;
    while left != {}
      invariant left <= s && Ascending(ids) && forall id :: id in ids <==> id in s - left
    {
      var id := Pick(left);
      left := left - {id};
      var i := 0;
      while i < |ids| && ids[i] < id
        invariant i <= |ids| && forall j :: 0 <= j < i ==> ids[j] < id
      {
        i := i + 1;
      }
      InsertAscending(ids, i, id);
      ids := ids[..i] + [id] + ids[i..];
    }
  }

  lemma InsertAscending(ids: seq<int>, i: nat, id: int)
    requires Ascending(ids) && i <= |ids| && id !in ids
    requires (forall j :: 0 <= j < i ==> ids[j] < id) && (i < |ids| ==> id <= ids[i])
    ensures Ascending(ids[..i] + [id] + ids[i..])
    ensures forall x :: x in ids[..i] + [id] + ids[i..] <==> x == id || x in ids
  {
    assert ids == ids[..i] + ids[i..];
  }

  lemma ListNext(out: seq<UsageRow>, ids: seq<int>, byID: map<int, UsageTotals>, dropZero: bool, id: int)
    requires Lists(out, ids, byID, dropZero) && id !in ids && id in byID
    ensures Lists(if !dropZero || byID[id] != ZERO then out + [UsageRow(Id(id), byID[id])] else out, ids + [id], byID, dropZero)
  {
    var row := UsageRow(Id(id), byID[id]);
    KeysOfAppend(out, [row]);
    assert [row][0].key in KeysOf([row]);
  }

  lemma NotListedYet(ids: seq<int>, i: nat)
    requires i < |ids| && forall j, k :: 0 <= j < k < |ids| ==> ids[j] != ids[k]
    ensures ids[i] !in ids[..i] && ids[..i + 1] == ids[..i] + [ids[i]]
  {
  }

  /** Appends the rows for `ids`. */
  method ListRows(ids: seq<int>, byID: map<int, UsageTotals>, dropZero: bool) returns (out: seq<UsageRow>)
    requires forall i, j :: 0 <= i < j < |ids| ==> ids[i] != ids[j]
    requires forall id :: id in ids ==> id in byID
    ensures Lists(out, ids, byID, dropZero) && InOrder(out, ids)
  {
    out := [];
    var i := 0;
    while i < |ids|
      invariant i <= |ids| && Lists(out, ids[..i], byID, dropZero) && InOrder(out, ids[..i])
    {
      var id := ids[i];
      assert id in ids;
      NotListedYet(ids, i);
      ListNext(out, ids[..i], byID, dropZero, id);
      OrderNext(out, ids[..i], UsageRow(Id(id), byID[id]));
      if !dropZero || byID[id] != ZERO {
        out := out + [UsageRow(Id(id), byID[id])];
      }
      i := i + 1;
    }
    assert ids[..i] == ids;
  }

  /** The loop over a result set: usage by id, the usage of the NULL group, and the grand totals. */
  method Scan(groups: map<Key, UsageTotals>, known: seq<int>, ghost rows: seq<LogRow>, ghost key: Grouping)
    returns (byID: map<int, UsageTotals>, unassigned: Option<UsageTotals>, grand: UsageTotals)
    requires Answers(groups, rows, key)
    ensures forall id :: id in byID <==> id in known || Id(id) in groups
    ensures forall id :: id in byID ==> byID[id] == TotalsFor(rows, key, Id(id))
    ensures unassigned == if Null in groups then Some(groups[Null]) else None
    ensures grand == TotalsAll(rows, key)
  {
    byID := map id | id in known :: ZERO;
    unassigned, grand := None, ZERO;
    var left := groups.Keys;
    GrandStarts(rows, key);
    assert groups.Keys - left == {};
    while left != {}
      invariant left <= groups.Keys
      invariant GrandSoFar(grand, rows, key, groups.Keys - left)
      invariant forall id :: id in byID <==> id in known || Id(id) in groups.Keys - left
      invariant forall id :: id in byID ==> byID[id] == if Id(id) in groups.Keys - left then groups[Id(id)] else ZERO
      invariant unassigned == if Null in groups.Keys - left then Some(groups[Null]) else None
    {
      var k := Pick(left);
      GrandGrows(grand, rows, key, groups.Keys - left, k);
      assert groups.Keys - left + {k} == groups.Keys - (left - {k});
      if k.Id? {
        byID := byID[k.id := groups[k]];
      } else {
        unassigned := Some(groups[k]);
      }
      grand := Plus(grand, groups[k]);
      left := left - {k};
    }
    GrandEnds(grand, rows, key, groups.Keys - left);
    forall id | id in byID && Id(id) !in groups ensures TotalsFor(rows, key, Id(id)) == ZERO { NoRowsNoTotals(rows, key, Id(id)); }
  }

  lemma FlatTotalsAppend(a: seq<UsageRow>, b: seq<UsageRow>, rows: seq<LogRow>, key: Grouping)
    requires FlatTotals(a, rows, key) && FlatTotals(b, rows, key)
    ensures FlatTotals(a + b, rows, key)
  {
  }

  lemma DistinctAppend(a: seq<UsageRow>, b: seq<UsageRow>)
    requires Distinct(a) && Distinct(b) && KeysOf(a) !! KeysOf(b)
    ensures Distinct(a + b)
  {
    var c := a + b;
    forall i, j | 0 <= i < j < |c| ensures c[i].key != c[j].key {
      if i < |a| <= j {
        assert a[i].key in KeysOf(a) && b[j - |a|].key in KeysOf(b);
      }
    }
  }

  /** Rows listed out of `byID` are flat totals, one a listed id. */
  lemma ListedTotals(out: seq<UsageRow>, ids: seq<int>, byID: map<int, UsageTotals>, dropZero: bool, rows: seq<LogRow>, key: Grouping)
    requires Lists(out, ids, byID, dropZero) && forall id :: id in byID ==> byID[id] == TotalsFor(rows, key, Id(id))
    ensures FlatTotals(out, rows, key) && Distinct(out)
    ensures forall k :: k in KeysOf(out) ==> k.Id? && k.id in ids
  {
  }

  /** An id with rows is listed even where all-zero rows are left out. */
  lemma ListedCovers(out: seq<UsageRow>, ids: seq<int>, byID: map<int, UsageTotals>, dropZero: bool, rows: seq<LogRow>, key: Grouping, id: int)
    requires Lists(out, ids, byID, dropZero) && forall i :: i in byID ==> byID[i] == TotalsFor(rows, key, Id(i))
    requires id in ids && HasKey(rows, key, Id(id))
    ensures Id(id) in KeysOf(out)
  {
    RowsAreRequests(rows, key, Id(id));
    var j :| 0 <= j < |ids| && ids[j] == id;
  }

  /** The listed rows, the orphans and the unassigned row together are a breakdown. */
  lemma Assembled(listed: seq<UsageRow>, orphans: seq<UsageRow>, last: seq<UsageRow>, known: seq<int>, rest: seq<int>,
                  byID: map<int, UsageTotals>, groups: map<Key, UsageTotals>, rows: seq<LogRow>, key: Grouping, dropZero: bool)
    requires Answers(groups, rows, key)
    requires Lists(listed, known, byID, dropZero) && Lists(orphans, rest, byID, false)
    requires forall id :: id in byID <==> id in known || Id(id) in groups
    requires forall id :: id in byID ==> byID[id] == TotalsFor(rows, key, Id(id))
    requires forall id :: id in rest <==> id in byID && id !in known
    requires last == if Null in groups then [UsageRow(Null, groups[Null])] else []
    ensures Breakdown(listed + orphans + last, rows, key)
  {
    var both := listed + orphans;
    ListedTotals(listed, known, byID, dropZero, rows, key);
    ListedTotals(orphans, rest, byID, false, rows, key);
    KeysOfAppend(listed, orphans);
    KeysOfAppend(both, last);
    FlatTotalsAppend(listed, orphans, rows, key);
    FlatTotalsAppend(both, last, rows, key);
    DistinctAppend(listed, orphans);
    assert forall k :: k in KeysOf(last) ==> k.Null?;
    DistinctAppend(both, last);
    forall k | HasKey(rows, key, k) ensures k in KeysOf(both + last) {
      if k.Null? { assert last[0].key in KeysOf(last); }
      else if k.id in known { ListedCovers(listed, known, byID, dropZero, rows, key, k.id); }
      else { ListedCovers(orphans, rest, byID, false, rows, key, k.id); }
    }
  }

  /** Ids listed with something other than zeros have rows. */
  lemma ListedHaveRows(first: seq<UsageRow>, known: seq<int>, byID: map<int, UsageTotals>, rows: seq<LogRow>, key: Grouping)
    requires Lists(first, known, byID, true) && forall id :: id in byID ==> byID[id] == TotalsFor(rows, key, Id(id))
    ensures forall i :: 0 <= i < |first| ==> HasKey(rows, key, first[i].key)
  {
    forall i | 0 <= i < |first| ensures HasKey(rows, key, first[i].key) {
      if !HasKey(rows, key, first[i].key) { NoRowsNoTotals(rows, key, first[i].key); }
    }
  }

  /** What the three parts of a result are, put together. */
  lemma Composed(first: seq<UsageRow>, orphans: seq<UsageRow>, last: seq<UsageRow>, known: seq<int>, rest: seq<int>,
                 byID: map<int, UsageTotals>, groups: map<Key, UsageTotals>, rows: seq<LogRow>, key: Grouping)
    requires Answers(groups, rows, key)
    requires Lists(first, known, byID, true) || Lists(first, known, byID, false)
    requires Lists(orphans, rest, byID, false)
    requires forall id :: id in rest <==> id in byID && id !in known
    requires forall id :: id in byID <==> id in known || Id(id) in groups
    requires forall id :: id in byID ==> byID[id] == TotalsFor(rows, key, Id(id))
    requires last == if Null in groups then [UsageRow(Null, groups[Null])] else []
    ensures Lists(first, known, byID, true) ==> forall i :: 0 <= i < |first + orphans + last| ==> HasKey(rows, key, (first + orphans + last)[i].key)
  {
    var out := first + orphans + last;
    if Lists(first, known, byID, true) {
      ListedHaveRows(first, known, byID, rows, key);
      forall i | 0 <= i < |out| ensures HasKey(rows, key, out[i].key) {
        if i < |first| { assert out[i] == first[i]; }
        else if i < |first| + |orphans| { assert out[i] == orphans[i - |first|] && orphans[i - |first|].key.id in rest; }
        else { assert out[i] == last[0]; }
      }
    }
  }

  /** The three parts follow each other in order. */
  lemma ComposedInOrder(first: seq<UsageRow>, orphans: seq<UsageRow>, last: seq<UsageRow>, known: seq<int>, rest: seq<int>,
                        byID: map<int, UsageTotals>, dropZero: bool)
    requires Lists(first, known, byID, dropZero) && InOrder(first, known)
    requires Lists(orphans, rest, byID, false) && Ascending(rest) && forall id :: id in rest ==> id !in known
    requires |last| <= 1 && forall i :: 0 <= i < |last| ==> last[i].key.Null?
    ensures InOrder(first + orphans + last, known)
  {
    forall i, j | 0 <= i < j < |orphans| ensures Before(orphans[i].key, orphans[j].key, known) {
      assert orphans[i].key == Id(rest[i]) && orphans[j].key == Id(rest[j]);
    }
    OrderAppend(first, orphans, known);
    OrderAppend(first + orphans, last, known);
  }

  /** All there is to say of the three parts together. */
  lemma ResultOf(first: seq<UsageRow>, orphans: seq<UsageRow>, last: seq<UsageRow>, known: seq<int>, rest: seq<int>,
                 byID: map<int, UsageTotals>, groups: map<Key, UsageTotals>, rows: seq<LogRow>, key: Grouping, dropZero: bool)
    requires Answers(groups, rows, key)
    requires Lists(first, known, byID, dropZero) && InOrder(first, known) && Lists(orphans, rest, byID, false) && Ascending(rest)
    requires forall id :: id in byID <==> id in known || Id(id) in groups
    requires forall id :: id in byID ==> byID[id] == TotalsFor(rows, key, Id(id))
    requires forall id :: id in rest <==> id in byID && id !in known
    requires last == if Null in groups then [UsageRow(Null, groups[Null])] else []
    ensures var out := first + orphans + last;
            && Breakdown(out, rows, key) && InOrder(out, known)
            && (!dropZero ==> |known| <= |out| && forall i :: 0 <= i < |known| ==> out[i].key == Id(known[i]))
            && (dropZero ==> forall i :: 0 <= i < |out| ==> HasKey(rows, key, out[i].key))
  {
    Assembled(first, orphans, last, known, rest, byID, groups, rows, key, dropZero);
    Composed(first, orphans, last, known, rest, byID, groups, rows, key);
    ComposedInOrder(first, orphans, last, known, rest, byID, dropZero);
  }

  /** Result rows: the listed ids in their order, then the orphans by id, then the unassigned group. */
  method Compose(groups: map<Key, UsageTotals>, known: seq<int>, dropZero: bool, ghost rows: seq<LogRow>, ghost key: Grouping)
    returns (out: seq<UsageRow>, grand: UsageTotals)
    requires Answers(groups, rows, key)
    requires forall i, j :: 0 <= i < j < |known| ==> known[i] != known[j]
    ensures Breakdown(out, rows, key) && grand == TotalsAll(rows, key)
    ensures !dropZero ==> |known| <= |out| && forall i :: 0 <= i < |known| ==> out[i].key == Id(known[i])
    ensures InOrder(out, known)
    ensures dropZero ==> forall i :: 0 <= i < |out| ==> HasKey(rows, key, out[i].key)
  {
    var byID, unassigned;
    byID, unassigned, grand := Scan(groups, known, rows, key);
    var orphanIDs := SortIds(set id | id in byID && id !in known);
    var first := ListRows(known, byID, dropZero);
    var orphans := ListRows(orphanIDs, byID, false);
    var last := if unassigned.Some? then [UsageRow(Null, unassigned.value)] else [];
    ResultOf(first, orphans, last, known, orphanIDs, byID, groups, rows, key, dropZero);
    out := first + orphans + last;
  }

  lemma {:induction false} RecordedSkips(tables: seq<DayTable>, i: nat, day: int, entry: LogRow)
    requires i <= |tables| && forall j :: 0 <= j < i ==> tables[j].day > day
    ensures Recorded(tables, day, entry) == tables[..i] + Recorded(tables[i..], day, entry)
  {
    if i == 0 {
      assert tables[0..] == tables;
    } else {
      var rest := tables[1..];
      assert forall j :: 0 <= j < i - 1 ==> rest[j] == tables[j + 1];
      RecordedSkips(rest, i - 1, day, entry);
      Regroup([tables[0]], rest[..i - 1], Recorded(rest[i - 1..], day, entry));
      FirstTable(tables, i);
    }
  }

  lemma FirstTable(tables: seq<DayTable>, i: nat)
    requires 0 < i <= |tables|
    ensures tables[1..][i - 1..] == tables[i..] && [tables[0]] + tables[1..][..i - 1] == tables[..i]
  {
  }

  /** CREATE TABLE IF NOT EXISTS for the day, then the INSERT. */
  method AddRow(tables: seq<DayTable>, day: int, entry: LogRow) returns (after: seq<DayTable>)
    ensures after == Recorded(tables, day, entry)
  {
    var i := 0;
    while i < |tables| && tables[i].day > day
      invariant i <= |tables| && forall j :: 0 <= j < i ==> tables[j].day > day
    {
      i := i + 1;
    }
    RecordedSkips(tables, i, day, entry);
    var rest := tables[i..];
    if i < |tables| && tables[i].day == day {
      after := tables[..i] + ([DayTable(day, rest[0].rows + [entry])] + rest[1..]);
    } else {
      after := tables[..i] + ([DayTable(day, [entry])] + rest);
    }
  }

  lemma OrderedAfterRecord(tables: seq<DayTable>, day: int, entry: LogRow)
    requires NewestFirst(tables)
    ensures NewestFirst(Recorded(tables, day, entry))
  {
    var bound := if tables == [] || tables[0].day < day then day + 1 else tables[0].day + 1;
    assert forall i :: 0 <= i < |tables| ==> tables[i].day <= tables[0].day;
    RecordedKeepsOrder(tables, day, entry, bound);
  }

  class Repository {
    const offset: int                    // of the configured location, in seconds
    var tables: seq<DayTable>            // newest day first, as requestLogTables lists them
    var subscriptions: seq<int>
    var lastUsed: map<int, Instant>
    var users: seq<int>
    var keys: map<int, Option<int>>      // api_keys: the user of each key

    ghost predicate Valid()
      reads this
    {
      && NewestFirst(tables) && Placed(tables, offset)
      && (forall i, j :: 0 <= i < j < |subscriptions| ==> subscriptions[i] != subscriptions[j])
      && (forall i, j :: 0 <= i < j < |users| ==> users[i] != users[j])
    }

    constructor (offset: int)
      ensures Valid() && this.offset == offset && tables == [] && subscriptions == [] && users == []
    {
      this.offset := offset;
      tables, subscriptions, lastUsed, users, keys := [], [], map[], [], map[];
    }

    method RecordRequest(entry: LogRow)
      requires Valid()
      modifies this
      ensures Valid() && tables == Recorded(old(tables), LocalDay(entry.startedAt, offset), entry)
      ensures lastUsed == if entry.subscription.Some? && entry.subscription.value in subscriptions
                          then old(lastUsed)[entry.subscription.value := entry.finishedAt] else old(lastUsed)
      ensures subscriptions == old(subscriptions) && users == old(users) && keys == old(keys)
    {
      RecordedStaysPlaced(tables, offset, entry);
      OrderedAfterRecord(tables, LocalDay(entry.startedAt, offset), entry);
      tables := AddRow(tables, LocalDay(entry.startedAt, offset), entry);
      if entry.subscription.Some? && entry.subscription.value in subscriptions {
        lastUsed := lastUsed[entry.subscription.value := entry.finishedAt];
      }
    }

    /** requestLogTablesInRange over requestLogTables */
    method TablesInRange(q: Range) returns (kept: seq<DayTable>)
      ensures kept == Keep(tables, DaysOf(q, offset))
    {
      var sinceDay, untilDay := LocalDay(q.since, offset), LocalDay(q.until, offset);
      kept := [];
      var i := |tables|;
      while i > 0
        invariant 0 <= i <= |tables| && kept == Keep(tables[i..], DaysOf(q, offset))
      {
        i := i - 1;
        assert tables[i..][1..] == tables[i + 1..];
        if sinceDay <= tables[i].day <= untilDay {
          kept := [tables[i]] + kept;
        }
      }
      assert tables[0..] == tables;
    }

    /** usageTotalsFromRequestLogs */
    method UsageOf(subscription: int, since: Instant, until: Instant) returns (totals: UsageTotals)
      requires Valid()
      ensures totals == TotalsFor(AllRows(tables), BySubscription(Range(since, until)), Id(subscription))
    {
      var q := Range(since, until);
      var kept := TablesInRange(q);
      SkippingChangesNothing(tables, q, offset, BySubscription(q), Id(subscription));
      totals := if |kept| == 0 then ZERO else TotalsFor(AllRows(kept), BySubscription(q), Id(subscription));
    }

    method UsageBySubscription(since: Instant, until: Instant) returns (r: Result<(seq<UsageRow>, UsageTotals), QueryError>)
      requires Valid()
      ensures r.Err? <==> until <= since
      ensures r.Ok? ==>
                && Breakdown(r.value.0, AllRows(tables), BySubscription(Range(since, until)))
                && r.value.1 == TotalsAll(AllRows(tables), BySubscription(Range(since, until)))
      ensures r.Ok? ==>
                && |r.value.0| >= |subscriptions|
                && (forall i :: 0 <= i < |subscriptions| ==> r.value.0[i].key == Id(subscriptions[i]))
                && InOrder(r.value.0, subscriptions)
    {
      if until <= since { return Err(UntilNotAfterSince); }
      var q := Range(since, until);
      var kept := TablesInRange(q);
      var groups := QueryGroups(RowsOf(kept), BySubscription(q));
      ghost var rows, key := AllRows(tables), BySubscription(q);
      QueryAnswers(tables, q, offset, key);
      assert !HasKey(rows, key, Null);
      var out, grand := Compose(groups, subscriptions, false, rows, key);
      r := Ok((out, grand));
    }

    method UsageByUser(since: Instant, until: Instant, subscription: Option<int>) returns (r: Result<(seq<UsageRow>, UsageTotals), QueryError>)
      requires Valid()
      ensures r.Err? <==> until <= since
      ensures r.Ok? ==>
                && Breakdown(r.value.0, AllRows(tables), ByUser(Range(since, until), keys, subscription))
                && r.value.1 == TotalsAll(AllRows(tables), ByUser(Range(since, until), keys, subscription))
                && (forall i :: 0 <= i < |r.value.0| ==> r.value.0[i].usage.requests > 0)
                && InOrder(r.value.0, users)
    {
      if until <= since { return Err(UntilNotAfterSince); }
      var q := Range(since, until);
      var kept := TablesInRange(q);
      var groups := QueryGroups(RowsOf(kept), ByUser(q, keys, subscription));
      ghost var rows, key := AllRows(tables), ByUser(q, keys, subscription);
      QueryAnswers(tables, q, offset, key);
      var out, grand := Compose(groups, users, true, rows, key);
      forall i | 0 <= i < |out| ensures out[i].usage.requests > 0 { RowsAreRequests(rows, key, out[i].key); }
      r := Ok((out, grand));
    }

    /** Drops the tables of days before the oldest retained one, oldest first. */
    method CleanupRequestLogTables(now: Instant, retentionDays: int) returns (expired: seq<int>)
      requires Valid()
      modifies this`tables
      ensures var oldest := LocalDay(now, offset) - ((if retentionDays < 1 then 30 else retentionDays) - 1);
              && tables == Retained(old(tables), oldest)
              && Ascending(expired)
              && (forall d :: d in expired <==> d < oldest && exists i :: 0 <= i < |old(tables)| && old(tables)[i].day == d)
      ensures Valid()
    {
      var retention := if retentionDays < 1 then 30 else retentionDays;
      var oldest := LocalDay(now, offset) - (retention - 1);
      expired := DaysBefore(oldest);
      DropDays(oldest, expired);
    }

    /** The days of tables before `oldest`, oldest first. */
    method DaysBefore(oldest: int) returns (expired: seq<int>)
      requires NewestFirst(tables)
      ensures Ascending(expired)
      ensures forall d :: d in expired <==> d < oldest && exists i :: 0 <= i < |tables| && tables[i].day == d
    {
      expired := [];
      var i := |tables|;
      while i > 0
        invariant 0 <= i <= |tables| && Ascending(expired)
        invariant forall d :: d in expired <==> d < oldest && exists j :: i <= j < |tables| && tables[j].day == d
      {
        i := i - 1;
        if tables[i].day < oldest {
          forall m | 0 <= m < |expired| ensures expired[m] < tables[i].day {
            assert expired[m] in expired;
            var j :| i < j < |tables| && tables[j].day == expired[m];
          }
          expired := expired + [tables[i].day];
        }
      }
    }

    /** DROP TABLE for each of them. */
    method DropDays(oldest: int, expired: seq<int>)
      requires Valid()
      requires forall d :: d in expired <==> d < oldest && exists i :: 0 <= i < |tables| && tables[i].day == d
      modifies this`tables
      ensures Valid() && tables == Retained(old(tables), oldest)
    {
      ghost var before := tables;
      var n := 0;
      KeepEverything(tables, d => d !in expired[..0]);
      while n < |expired|
        invariant n <= |expired| && tables == Keep(before, d => d !in expired[..n])
      {
        OneMoreDay(before, expired, n, tables);
        tables := Keep(tables, d => d != expired[n]);
        n := n + 1;
      }
      assert expired[..n] == expired;
      KeepSame(before, d => d !in expired[..n], d => d >= oldest);
      KeepValid(before, d => d >= oldest, offset);
    }
  }

  lemma OneMoreDay(before: seq<DayTable>, expired: seq<int>, n: nat, tables: seq<DayTable>)
    requires n < |expired| && tables == Keep(before, d => d !in expired[..n])
    ensures Keep(tables, d => d != expired[n]) == Keep(before, d => d !in expired[..n + 1])
  {
    KeepTwice(before, d => d !in expired[..n], d => d != expired[n], d => d !in expired[..n + 1]);
  }

  lemma {:induction false} KeepEverything(tables: seq<DayTable>, wanted: int -> bool)
    requires forall i :: 0 <= i < |tables| ==> wanted(tables[i].day)
    ensures Keep(tables, wanted) == tables
  {
    if tables != [] {
      assert forall i :: 0 <= i < |tables[1..]| ==> tables[1..][i] == tables[i + 1];
      KeepEverything(tables[1..], wanted);
    }
  }

  lemma {:induction false} KeepTwice(tables: seq<DayTable>, first: int -> bool, second: int -> bool, both: int -> bool)
    requires forall d :: both(d) <==> first(d) && second(d)
    ensures Keep(Keep(tables, first), second) == Keep(tables, both)
  {
    if tables != [] {
      KeepTwice(tables[1..], first, second, both);
      if first(tables[0].day) { assert Keep(tables, first)[1..] == Keep(tables[1..], first); }
    }
  }

  lemma {:induction false} KeepSame(tables: seq<DayTable>, p: int -> bool, q: int -> bool)
    requires forall i :: 0 <= i < |tables| ==> (p(tables[i].day) <==> q(tables[i].day))
    ensures Keep(tables, p) == Keep(tables, q)
  {
    if tables != [] {
      assert forall i :: 0 <= i < |tables[1..]| ==> tables[1..][i] == tables[i + 1];
      KeepSame(tables[1..], p, q);
    }
  }

  lemma {:induction false} KeepIsPart(tables: seq<DayTable>, wanted: int -> bool)
    ensures forall t :: t in Keep(tables, wanted) ==> t in tables
  {
    if tables != [] {
      KeepIsPart(tables[1..], wanted);
    }
  }

  lemma {:induction false} KeepOrdered(tables: seq<DayTable>, wanted: int -> bool)
    requires NewestFirst(tables)
    ensures NewestFirst(Keep(tables, wanted))
  {
    if tables != [] {
      var first, rest := tables[0], tables[1..];
      KeepOrdered(rest, wanted);
      KeepIsPart(rest, wanted);
      forall t | t in rest ensures t.day < first.day { var i :| 0 <= i < |rest| && rest[i] == t; assert rest[i] == tables[i + 1]; }
      OrderedInFront(first, Keep(rest, wanted));
    }
  }

  lemma OrderedInFront(first: DayTable, rest: seq<DayTable>)
    requires NewestFirst(rest) && forall t :: t in rest ==> t.day < first.day
    ensures NewestFirst([first] + rest)
  {
  }

  lemma KeepValid(tables: seq<DayTable>, wanted: int -> bool, offset: int)
    requires NewestFirst(tables) && Placed(tables, offset)
    ensures NewestFirst(Keep(tables, wanted)) && Placed(Keep(tables, wanted), offset)
  {
    KeepOrdered(tables, wanted);
    KeepIsPart(tables, wanted);
    var kept := Keep(tables, wanted);
    forall i, j | 0 <= i < |kept| && 0 <= j < |kept[i].rows| ensures LocalDay(kept[i].rows[j].startedAt, offset) == kept[i].day {
      assert kept[i] in tables;
      var k :| 0 <= k < |tables| && tables[k] == kept[i];
      assert LocalDay(tables[k].rows[j].startedAt, offset) == tables[k].day;
    }
  }
}

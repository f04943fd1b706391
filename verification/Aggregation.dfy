/**
 Usage totals, the flat filter-and-sum over rows, and GROUP BY as SQL runs it. A column is a number
 each row carries; the lemmas are about one column at a time.
 */
module Aggregation {
  import opened Prelude

  /** A row of a day's table, as far as usage goes. */
  datatype LogRow = LogRow(startedAt: int, finishedAt: int, subscription: Option<int>, apiKey: Option<int>, user: Option<int>,
                           input: Option<int>, output: Option<int>, cacheRead: Option<int>, cacheCreation: Option<int>, total: Option<int>)

  datatype Column = Requests | Input | Output | CacheRead | CacheCreation | Tokens

  function OrZero(x: Option<int>): int { if x.Some? then x.value else 0 }

  /** What COUNT(*) and each SUM(...) add up. */
  function Cell(r: LogRow, c: Column): int {
    match c
    case Requests => 1
    case Input => OrZero(r.input)
    case Output => OrZero(r.output)
    case CacheRead => OrZero(r.cacheRead)
    case CacheCreation => OrZero(r.cacheCreation)
    case Tokens => if r.total.Some? then r.total.value else OrZero(r.input) + OrZero(r.output)
  }

  type Cells = LogRow -> int

  function Of(c: Column): Cells { r => Cell(r, c) }

  /** A GROUP BY key: an id or NULL. */
  datatype Key = Null | Id(id: int)

  /** The group a row falls in, or None when the WHERE clause drops it. */
  type Grouping = LogRow -> Option<Key>

  // ---- Flat sums ----

  function SumFor(rows: seq<LogRow>, key: Grouping, w: Cells, k: Key): int {
    if rows == [] then 0
    else (if key(rows[0]) == Some(k) then w(rows[0]) else 0) + SumFor(rows[1..], key, w, k)
  }

  function SumAll(rows: seq<LogRow>, key: Grouping, w: Cells): int {
    if rows == [] then 0
    else (if key(rows[0]).Some? then w(rows[0]) else 0) + SumAll(rows[1..], key, w)
  }

  predicate HasKey(rows: seq<LogRow>, key: Grouping, k: Key) {
    exists i :: 0 <= i < |rows| && key(rows[i]) == Some(k)
  }

  lemma {:induction false} SumForAppend(a: seq<LogRow>, b: seq<LogRow>, key: Grouping, w: Cells, k: Key)
    ensures SumFor(a + b, key, w, k) == SumFor(a, key, w, k) + SumFor(b, key, w, k)
  {
    if a == [] {
      assert a + b == b;
    } else {
      assert (a + b)[0] == a[0] && (a + b)[1..] == a[1..] + b;
      SumForAppend(a[1..], b, key, w, k);
    }
  }

  lemma {:induction false} SumAllAppend(a: seq<LogRow>, b: seq<LogRow>, key: Grouping, w: Cells)
    ensures SumAll(a + b, key, w) == SumAll(a, key, w) + SumAll(b, key, w)
  {
    if a == [] {
      assert a + b == b;
    } else {
      assert (a + b)[0] == a[0] && (a + b)[1..] == a[1..] + b;
      SumAllAppend(a[1..], b, key, w);
    }
  }

  /** The sum over all groups depends only on which rows pass the WHERE clause. */
  lemma {:induction false} SameRowsSameSum(rows: seq<LogRow>, key: Grouping, other: Grouping, w: Cells)
    requires forall i :: 0 <= i < |rows| ==> (key(rows[i]).Some? <==> other(rows[i]).Some?)
    ensures SumAll(rows, key, w) == SumAll(rows, other, w)
  {
    if rows != [] {
      assert key(rows[0]).Some? <==> other(rows[0]).Some?;
      assert forall i :: 0 <= i < |rows[1..]| ==> rows[1..][i] == rows[i + 1];
      SameRowsSameSum(rows[1..], key, other, w);
    }
  }

  /** The sum over a filter that keeps one group only is that group's sum. */
  lemma {:induction false} FilteredSum(rows: seq<LogRow>, key: Grouping, other: Grouping, w: Cells, k: Key)
    requires forall i :: 0 <= i < |rows| ==> (key(rows[i]) == Some(k) <==> other(rows[i]).Some?)
    ensures SumFor(rows, key, w, k) == SumAll(rows, other, w)
  {
    if rows != [] {
      assert key(rows[0]) == Some(k) <==> other(rows[0]).Some?;
      assert forall i :: 0 <= i < |rows[1..]| ==> rows[1..][i] == rows[i + 1];
      FilteredSum(rows[1..], key, other, w, k);
    }
  }

  /** The rows of one filter split into those of two others. */
  lemma {:induction false} SplitSum(rows: seq<LogRow>, key: Grouping, left: Grouping, right: Grouping, w: Cells, k: Key)
    requires forall i :: 0 <= i < |rows| ==> !(left(rows[i]).Some? && right(rows[i]).Some?)
    requires forall i :: 0 <= i < |rows| ==> key(rows[i]) == if left(rows[i]).Some? then left(rows[i]) else right(rows[i])
    ensures SumFor(rows, key, w, k) == SumFor(rows, left, w, k) + SumFor(rows, right, w, k)
  {
    if rows != [] {
      assert !(left(rows[0]).Some? && right(rows[0]).Some?);
      assert key(rows[0]) == if left(rows[0]).Some? then left(rows[0]) else right(rows[0]);
      assert forall i :: 0 <= i < |rows[1..]| ==> rows[1..][i] == rows[i + 1];
      SplitSum(rows[1..], key, left, right, w, k);
    }
  }

  lemma {:induction false} NothingToSum(rows: seq<LogRow>, key: Grouping, w: Cells, k: Key)
    requires forall i :: 0 <= i < |rows| ==> key(rows[i]) == None
    ensures SumFor(rows, key, w, k) == 0 && SumAll(rows, key, w) == 0 && !HasKey(rows, key, k)
  {
    if rows != [] {
      assert key(rows[0]) == None;
      assert forall i :: 0 <= i < |rows[1..]| ==> rows[1..][i] == rows[i + 1];
      NothingToSum(rows[1..], key, w, k);
    }
  }

  /** The sum of the rows in groups other than those in `seen`. */
  function SumExcept(rows: seq<LogRow>, key: Grouping, w: Cells, seen: set<Key>): int {
    if rows == [] then 0
    else (if key(rows[0]).Some? && key(rows[0]).value !in seen then w(rows[0]) else 0) + SumExcept(rows[1..], key, w, seen)
  }

  lemma {:induction false} SumExceptOne(rows: seq<LogRow>, key: Grouping, w: Cells, seen: set<Key>, k: Key)
    requires k !in seen
    ensures SumExcept(rows, key, w, seen) == SumFor(rows, key, w, k) + SumExcept(rows, key, w, seen + {k})
  {
    if rows != [] {
      SumExceptOne(rows[1..], key, w, seen, k);
    }
  }

  lemma {:induction false} SumExceptNone(rows: seq<LogRow>, key: Grouping, w: Cells)
    ensures SumExcept(rows, key, w, {}) == SumAll(rows, key, w)
  {
    if rows != [] {
      SumExceptNone(rows[1..], key, w);
    }
  }

  lemma {:induction false} SumExceptAll(rows: seq<LogRow>, key: Grouping, w: Cells, seen: set<Key>)
    requires forall k :: HasKey(rows, key, k) ==> k in seen
    ensures SumExcept(rows, key, w, seen) == 0
  {
    if rows != [] {
      if key(rows[0]).Some? { assert HasKey(rows, key, key(rows[0]).value); }
      forall k | HasKey(rows[1..], key, k) ensures k in seen { HasKeyCons(rows, key, k); }
      SumExceptAll(rows[1..], key, w, seen);
    }
  }

  lemma HasKeyCons(rows: seq<LogRow>, key: Grouping, k: Key)
    requires rows != []
    ensures HasKey(rows, key, k) <==> key(rows[0]) == Some(k) || HasKey(rows[1..], key, k)
  {
    if HasKey(rows, key, k) {
      var i :| 0 <= i < |rows| && key(rows[i]) == Some(k);
      if i > 0 { assert key(rows[1..][i - 1]) == Some(k); }
    }
    if HasKey(rows[1..], key, k) {
      var i :| 0 <= i < |rows[1..]| && key(rows[1..][i]) == Some(k);
      assert key(rows[i + 1]) == Some(k);
    }
  }

  lemma HasKeyAppend(a: seq<LogRow>, b: seq<LogRow>, key: Grouping, k: Key)
    ensures HasKey(a + b, key, k) <==> HasKey(a, key, k) || HasKey(b, key, k)
  {
    var c := a + b;
    if HasKey(c, key, k) {
      var i :| 0 <= i < |c| && key(c[i]) == Some(k);
      if i < |a| { assert key(a[i]) == Some(k); } else { assert key(b[i - |a|]) == Some(k); }
    }
    if HasKey(a, key, k) {
      var i :| 0 <= i < |a| && key(a[i]) == Some(k);
      assert key(c[i]) == Some(k);
    }
    if HasKey(b, key, k) {
      var i :| 0 <= i < |b| && key(b[i]) == Some(k);
      assert key(c[|a| + i]) == Some(k);
    }
  }

  /** Only groups with rows have a sum other than zero. */
  lemma {:induction false} NoRowsNoSum(rows: seq<LogRow>, key: Grouping, w: Cells, k: Key)
    requires !HasKey(rows, key, k)
    ensures SumFor(rows, key, w, k) == 0
  {
    if rows != [] {
      HasKeyCons(rows, key, k);
      NoRowsNoSum(rows[1..], key, w, k);
    }
  }

  // ---- GROUP BY, in one level and in two ----

  type Groups = map<Key, int>

  function In(g: Groups, k: Key): int { if k in g then g[k] else 0 }

  /** SELECT key, SUM(w) FROM rows GROUP BY key */
  function GroupRows(rows: seq<LogRow>, key: Grouping, w: Cells): Groups {
    if rows == [] then map[]
    else
      var g := GroupRows(rows[1..], key, w);
      var x := key(rows[0]);
      if x.None? then g else g[x.value := w(rows[0]) + In(g, x.value)]
  }

  /** The groups of two partial results summed by key. */
  function Merge(g: Groups, h: Groups): Groups {
    map k | k in g.Keys + h.Keys :: In(g, k) + In(h, k)
  }

  /** The outer query: the groups of every part of a UNION ALL, grouped and summed again. */
  function GroupParts(parts: seq<Groups>): Groups {
    if parts == [] then map[] else Merge(parts[0], GroupParts(parts[1..]))
  }

  lemma {:induction false} GroupRowsIsFlat(rows: seq<LogRow>, key: Grouping, w: Cells, k: Key)
    ensures k in GroupRows(rows, key, w) <==> HasKey(rows, key, k)
    ensures In(GroupRows(rows, key, w), k) == SumFor(rows, key, w, k)
  {
    if rows != [] {
      GroupRowsIsFlat(rows[1..], key, w, k);
      HasKeyCons(rows, key, k);
    }
  }

  /** The rows of several tables. */
  function Flat(tables: seq<seq<LogRow>>): seq<LogRow> {
    if tables == [] then [] else tables[0] + Flat(tables[1..])
  }

  /** One inner query per table. */
  function Parts(tables: seq<seq<LogRow>>, key: Grouping, w: Cells): seq<Groups> {
    if tables == [] then [] else [GroupRows(tables[0], key, w)] + Parts(tables[1..], key, w)
  }

  /** Grouping each table and then grouping the parts is grouping all rows at once. */
  lemma {:induction false} TwoLevelIsFlat(tables: seq<seq<LogRow>>, key: Grouping, w: Cells, k: Key)
    ensures k in GroupParts(Parts(tables, key, w)) <==> HasKey(Flat(tables), key, k)
    ensures In(GroupParts(Parts(tables, key, w)), k) == SumFor(Flat(tables), key, w, k)
  {
    if tables != [] {
      var parts, rest := Parts(tables, key, w), Flat(tables[1..]);
      assert parts[0] == GroupRows(tables[0], key, w) && parts[1..] == Parts(tables[1..], key, w);
      TwoLevelIsFlat(tables[1..], key, w, k);
      GroupRowsIsFlat(tables[0], key, w, k);
      HasKeyAppend(tables[0], rest, key, k);
      SumForAppend(tables[0], rest, key, w, k);
    }
  }
}

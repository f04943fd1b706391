/**
 allowRate: a fixed-window counter per key. Times are integers (nanoseconds); the zero time.Time of
 a key never seen is None.
 */
module RateWindow {
  import opened Prelude

  datatype RateWindow = RateWindow(started: Option<int>, count: int)

  const ZERO := RateWindow(None, 0)

  predicate Opens(state: RateWindow, window: int, now: int) {
    state.started.None? || now - state.started.value >= window
  }

  /** The decision at `now` and the counter afterwards, for a positive limit. */
  function Decide(state: RateWindow, limit: int, window: int, now: int): (RateWindow, bool) {
    var s := if Opens(state, window, now) then RateWindow(Some(now), 0) else state;
    if s.count >= limit then (s, false) else (s.(count := s.count + 1), true)
  }

  function Lookup(rates: map<string, RateWindow>, key: string): RateWindow {
    if key in rates then rates[key] else ZERO
  }

  class RateLimiter {
    var rates: map<string, RateWindow>

    constructor ()
      ensures rates == map[]
    {
      rates := map[];
    }

    function StateOf(key: string): RateWindow
      reads this
    {
      Lookup(rates, key)
    }

    method AllowRate(key: string, limit: int, window: int, now: int) returns (allowed: bool)
      modifies this
      ensures limit <= 0 ==> allowed && rates == old(rates)
      ensures limit > 0 ==> (StateOf(key), allowed) == Decide(old(StateOf(key)), limit, window, now)
      ensures limit > 0 ==> rates == old(rates)[key := StateOf(key)]
    {
      if limit <= 0 { return true; }
      var state := StateOf(key);
      if state.started.None? || now - state.started.value >= window {
        state := RateWindow(Some(now), 0);
      }
      if state.count >= limit {
        rates := rates[key := state];
        return false;
      }
      state := state.(count := state.count + 1);
      rates := rates[key := state];
      return true;
    }
  }

  // ---- Runs of one key ----

  /** One window: when it opened and the times admitted in it. */
  datatype Window = Window(start: int, admitted: seq<int>)

  /** The counter after calls at `times`, and the windows they opened. */
  datatype Log = Log(state: RateWindow, windows: seq<Window>)

  function Advance(log: Log, limit: int, window: int, now: int): Log {
    var (next, allowed) := Decide(log.state, limit, window, now);
    var more, n := if allowed then [now] else [], |log.windows|;
    if log.windows == [] || Opens(log.state, window, now) then Log(next, log.windows + [Window(now, more)])
    else
      var last := log.windows[n - 1];
      Log(next, log.windows[..n - 1] + [Window(last.start, last.admitted + more)])
  }

  function Play(times: seq<int>, limit: int, window: int): Log {
    if times == [] then Log(ZERO, [])
    else Advance(Play(times[..|times| - 1], limit, window), limit, window, times[|times| - 1])
  }

  /** The decision for the last of `times`. */
  predicate LastAllowed(times: seq<int>, limit: int, window: int)
    requires times != []
  {
    Decide(Play(times[..|times| - 1], limit, window).state, limit, window, times[|times| - 1]).1
  }

  /** The times at which calls were admitted. */
  function Admissions(times: seq<int>, limit: int, window: int): seq<int> {
    if times == [] then []
    else Admissions(times[..|times| - 1], limit, window)
         + if LastAllowed(times, limit, window) then [times[|times| - 1]] else []
  }

  ghost predicate NonDecreasing(times: seq<int>) {
    forall i, j :: 0 <= i < j < |times| ==> times[i] <= times[j]
  }

  /** How many entries of `xs` lie in [from, to). */
  function CountIn(xs: seq<int>, from: int, to: int): nat {
    if xs == [] then 0
    else CountIn(xs[..|xs| - 1], from, to) + if from <= xs[|xs| - 1] < to then 1 else 0
  }

  function CountInWindows(ws: seq<Window>, from: int, to: int): nat {
    if ws == [] then 0
    else CountInWindows(ws[..|ws| - 1], from, to) + CountIn(ws[|ws| - 1].admitted, from, to)
  }

  // ---- Invariant of a run ----

  ghost predicate WindowOk(w: Window, limit: int, window: int) {
    && 0 < |w.admitted| <= limit
    && w.admitted[0] == w.start
    && (forall i :: 0 <= i < |w.admitted| ==> w.start <= w.admitted[i] < w.start + window)
  }

  ghost predicate WindowsOk(ws: seq<Window>, limit: int, window: int) {
    && (forall i :: 0 <= i < |ws| ==> WindowOk(ws[i], limit, window))
    && (forall i :: 0 <= i < |ws| - 1 ==> ws[i].start + window <= ws[i + 1].start)
  }

  ghost predicate LogOk(log: Log, limit: int, window: int) {
    && WindowsOk(log.windows, limit, window)
    && (log.windows == [] ==> log.state == ZERO)
    && (log.windows != [] ==>
          var last := log.windows[|log.windows| - 1];
          log.state == RateWindow(Some(last.start), |last.admitted|))
  }

  /** The latest window is not in the future. */
  ghost predicate Started(ws: seq<Window>, now: int) {
    ws != [] ==> 
      var last := ws[|ws| - 1];
      last.start <= now && forall i :: 0 <= i < |last.admitted| ==> last.admitted[i] <= now
  }

  lemma AdvanceOk(log: Log, limit: int, window: int, now: int)
    requires limit > 0 && window > 0 && LogOk(log, limit, window) && Started(log.windows, now)
    ensures LogOk(Advance(log, limit, window, now), limit, window)
    ensures Started(Advance(log, limit, window, now).windows, now)
  {
    var ws := log.windows;
    if ws != [] && !Opens(log.state, window, now) {
      assert WindowOk(ws[|ws| - 1], limit, window);
    }
  }

  lemma {:induction false} PlayOk(times: seq<int>, limit: int, window: int)
    requires limit > 0 && window > 0 && NonDecreasing(times)
    ensures LogOk(Play(times, limit, window), limit, window)
    ensures times != [] ==> Started(Play(times, limit, window).windows, times[|times| - 1])
    ensures times == [] ==> Play(times, limit, window).windows == []
    decreases |times|
  {
    if times != [] {
      var before, now := times[..|times| - 1], times[|times| - 1];
      PlayOk(before, limit, window);
      AdvanceOk(Play(before, limit, window), limit, window, now);
    }
  }

  lemma CountAppend(a: seq<int>, x: int, from: int, to: int)
    ensures CountIn(a + [x], from, to) == CountIn(a, from, to) + if from <= x < to then 1 else 0
  {
    assert (a + [x])[..|a|] == a;
  }

  lemma CountWindowsAppend(ws: seq<Window>, w: Window, from: int, to: int)
    ensures CountInWindows(ws + [w], from, to) == CountInWindows(ws, from, to) + CountIn(w.admitted, from, to)
  {
    assert (ws + [w])[..|ws|] == ws;
  }

  lemma OneOrNone(now: int, allowed: bool, from: int, to: int)
    ensures CountIn(if allowed then [now] else [], from, to) == if allowed && from <= now < to then 1 else 0
  {
    CountAppend([], now, from, to);
    assert [] + [now] == [now];
  }

  lemma SameWindowCounts(ws: seq<Window>, now: int, allowed: bool, from: int, to: int)
    requires ws != []
    ensures var last, more := ws[|ws| - 1], if allowed then [now] else [];
            CountInWindows(ws[..|ws| - 1] + [Window(last.start, last.admitted + more)], from, to) ==
            CountInWindows(ws, from, to) + if allowed && from <= now < to then 1 else 0
  {
    var last, more := ws[|ws| - 1], if allowed then [now] else [];
    if allowed { CountAppend(last.admitted, now, from, to); } else { assert last.admitted + more == last.admitted; }
    CountWindowsAppend(ws[..|ws| - 1], Window(last.start, last.admitted + more), from, to);
  }

  lemma AdvanceCounts(log: Log, limit: int, window: int, now: int, from: int, to: int)
    ensures CountInWindows(Advance(log, limit, window, now).windows, from, to) ==
            CountInWindows(log.windows, from, to)
            + if Decide(log.state, limit, window, now).1 && from <= now < to then 1 else 0
  {
    var allowed := Decide(log.state, limit, window, now).1;
    if log.windows == [] || Opens(log.state, window, now) {
      OneOrNone(now, allowed, from, to);
      CountWindowsAppend(log.windows, Window(now, if allowed then [now] else []), from, to);
    } else {
      SameWindowCounts(log.windows, now, allowed, from, to);
    }
  }

  /** Counting by windows counts every admission. */
  lemma {:induction false} WindowsCount(times: seq<int>, limit: int, window: int, from: int, to: int)
    ensures CountIn(Admissions(times, limit, window), from, to)
            == CountInWindows(Play(times, limit, window).windows, from, to)
    decreases |times|
  {
    if times != [] {
      var before, now := times[..|times| - 1], times[|times| - 1];
      WindowsCount(before, limit, window, from, to);
      AdvanceCounts(Play(before, limit, window), limit, window, now, from, to);
      CountAppend(Admissions(before, limit, window), now, from, to);
      assert Admissions(before, limit, window) + [] == Admissions(before, limit, window);
    }
  }

  // ---- The sliding-window bound ----

  lemma {:induction false} CountNone(xs: seq<int>, from: int, to: int)
    requires forall i :: 0 <= i < |xs| ==> !(from <= xs[i] < to)
    ensures CountIn(xs, from, to) == 0
  {
    if xs != [] { CountNone(xs[..|xs| - 1], from, to); }
  }

  lemma {:induction false} CountAtMost(xs: seq<int>, from: int, to: int)
    ensures CountIn(xs, from, to) <= |xs|
    ensures xs != [] && !(from <= xs[0] < to) ==> CountIn(xs, from, to) < |xs|
  {
    if xs != [] { CountAtMost(xs[..|xs| - 1], from, to); }
  }

  lemma {:induction false} CountAll(xs: seq<int>, from: int, to: int)
    requires forall i :: 0 <= i < |xs| ==> from <= xs[i] < to
    ensures CountIn(xs, from, to) == |xs|
  {
    if xs != [] { CountAll(xs[..|xs| - 1], from, to); }
  }

  /** Windows that ended by `from` contribute nothing. */
  lemma {:induction false} EndedBefore(ws: seq<Window>, limit: int, window: int, from: int, to: int)
    requires window > 0 && WindowsOk(ws, limit, window)
    requires ws != [] ==> ws[|ws| - 1].start + window <= from
    ensures CountInWindows(ws, from, to) == 0
    decreases |ws|
  {
    if ws != [] {
      var last := ws[|ws| - 1];
      assert WindowOk(last, limit, window);
      CountNone(last.admitted, from, to);
      EndedBefore(ws[..|ws| - 1], limit, window, from, to);
    }
  }

  /** If every window opened before from + k*window, at most k+1 of them reach into [from, to). */
  lemma {:induction false} BoundByStarts(ws: seq<Window>, limit: int, window: int, from: int, to: int, k: nat)
    requires limit > 0 && window > 0 && WindowsOk(ws, limit, window)
    requires ws != [] ==> ws[|ws| - 1].start < from + k * window
    ensures CountInWindows(ws, from, to) <= (k + 1) * limit - 1
    decreases |ws|
  {
    if ws == [] {
      assert (k + 1) * limit >= limit;
    } else {
      var last, rest := ws[|ws| - 1], ws[..|ws| - 1];
      assert WindowOk(last, limit, window);
      CountAtMost(last.admitted, from, to);
      assert rest != [] ==> rest[|rest| - 1].start + window <= last.start;
      if k == 0 {
        EndedBefore(rest, limit, window, from, to);
      } else {
        assert (k - 1) * window == k * window - window;
        BoundByStarts(rest, limit, window, from, to, k - 1);
        assert (k + 1) * limit == k * limit + limit;
      }
    }
  }

  /** Windows that opened at or after `to` contribute nothing either. */
  lemma {:induction false} BoundInInterval(ws: seq<Window>, limit: int, window: int, from: int, k: nat)
    requires limit > 0 && window > 0 && WindowsOk(ws, limit, window)
    ensures CountInWindows(ws, from, from + k * window) <= (k + 1) * limit - 1
    decreases |ws|
  {
    if ws == [] || ws[|ws| - 1].start < from + k * window {
      BoundByStarts(ws, limit, window, from, from + k * window, k);
    } else {
      assert WindowOk(ws[|ws| - 1], limit, window);
      CountNone(ws[|ws| - 1].admitted, from, from + k * window);
      BoundInInterval(ws[..|ws| - 1], limit, window, from, k);
    }
  }

  /** Any half-open interval of k windows' length contains at most (k+1)*limit - 1 admissions of a key. */
  lemma AtMostOneWindowMore(times: seq<int>, limit: int, window: int, from: int, k: nat)
    requires limit > 0 && window > 0 && NonDecreasing(times)
    ensures CountIn(Admissions(times, limit, window), from, from + k * window) <= (k + 1) * limit - 1
  {
    PlayOk(times, limit, window);
    WindowsCount(times, limit, window, from, from + k * window);
    BoundInInterval(Play(times, limit, window).windows, limit, window, from, k);
  }

  // ---- What a rejection says ----

  /** When the counter's current window opened, just before the last of `times`. */
  function WindowStart(times: seq<int>, limit: int, window: int): int
    requires times != []
  {
    var started := Play(times[..|times| - 1], limit, window).state.started;
    if started.None? then times[|times| - 1] else started.value
  }

  /**
   A rejection at t means that the window in force, opened within the last `window`, has admitted
   exactly `limit` calls; admissions of the window before may come on top.
   */
  lemma RejectedMeansWindowFull(times: seq<int>, limit: int, window: int)
    requires limit > 0 && window > 0 && NonDecreasing(times) && times != [] && !LastAllowed(times, limit, window)
    ensures var t, s := times[|times| - 1], WindowStart(times, limit, window);
            && t - window < s <= t
            && CountIn(Admissions(times, limit, window), s, t + 1) == limit
            && CountIn(Admissions(times, limit, window), t - window + 1, t + 1)
               == limit + CountIn(Admissions(times, limit, window), t - window + 1, s)
  {
    CurrentWindowFull(times, limit, window);
    LastOnTop(Admissions(times, limit, window), times[|times| - 1], WindowStart(times, limit, window), limit, window);
  }

  /** What the last `window` holds beside a full current window. */
  lemma LastOnTop(xs: seq<int>, t: int, s: int, limit: int, window: int)
    requires t - window < s <= t && CountIn(xs, s, t + 1) == limit
    ensures CountIn(xs, t - window + 1, t + 1) == limit + CountIn(xs, t - window + 1, s)
  {
    CountSplit(xs, t - window + 1, s, t + 1);
  }

  lemma CurrentWindowFull(times: seq<int>, limit: int, window: int)
    requires limit > 0 && window > 0 && NonDecreasing(times) && times != [] && !LastAllowed(times, limit, window)
    ensures var t, s := times[|times| - 1], WindowStart(times, limit, window);
            t - window < s <= t && CountIn(Admissions(times, limit, window), s, t + 1) == limit
  {
    BeforeLast(times, limit, window);
    FullBefore(times[..|times| - 1], times[|times| - 1], limit, window);
    RejectionAdmitsNothing(times, limit, window);
  }

  /** The admissions a rejection at `t` finds in the current window. */
  lemma FullBefore(before: seq<int>, t: int, limit: int, window: int)
    requires limit > 0 && window > 0
    requires LogOk(Play(before, limit, window), limit, window) && Started(Play(before, limit, window).windows, t)
    requires !Decide(Play(before, limit, window).state, limit, window, t).1
    ensures var started := Play(before, limit, window).state.started;
            && started.Some? && t - window < started.value <= t
            && CountIn(Admissions(before, limit, window), started.value, t + 1) == limit
  {
    FullWindow(Play(before, limit, window), limit, window, t);
    WindowsCount(before, limit, window, Play(before, limit, window).state.started.value, t + 1);
  }

  lemma RejectionAdmitsNothing(times: seq<int>, limit: int, window: int)
    requires times != [] && !LastAllowed(times, limit, window)
    ensures Admissions(times, limit, window) == Admissions(times[..|times| - 1], limit, window)
  {
    var before := Admissions(times[..|times| - 1], limit, window);
    assert before + [] == before;
  }

  lemma BeforeLast(times: seq<int>, limit: int, window: int)
    requires limit > 0 && window > 0 && NonDecreasing(times) && times != []
    ensures LogOk(Play(times[..|times| - 1], limit, window), limit, window)
    ensures Started(Play(times[..|times| - 1], limit, window).windows, times[|times| - 1])
  {
    var before := times[..|times| - 1];
    PlayOk(before, limit, window);
    assert before != [] ==> before[|before| - 1] <= times[|times| - 1];
  }

  /** The window a rejection finds in force, counted on its own. */
  lemma FullWindow(log: Log, limit: int, window: int, t: int)
    requires limit > 0 && window > 0 && LogOk(log, limit, window) && Started(log.windows, t)
    requires !Decide(log.state, limit, window, t).1
    ensures log.state.started.Some? && t - window < log.state.started.value <= t
    ensures CountInWindows(log.windows, log.state.started.value, t + 1) == limit
  {
    var ws := log.windows;
    var last, s := ws[|ws| - 1], log.state.started.value;
    assert WindowOk(last, limit, window);
    CountAll(last.admitted, s, t + 1);
    EndedBefore(ws[..|ws| - 1], limit, window, s, t + 1);
  }

  /**
   After a rejection the last `limit` admissions are those of the current window. Exactly `limit` calls were
   admitted in the last `window` iff the admission before them, if there is one, is at least one window old.
   */
  lemma RejectionCountsExactlyIff(times: seq<int>, limit: int, window: int)
    requires limit > 0 && window > 0 && NonDecreasing(times) && times != [] && !LastAllowed(times, limit, window)
    ensures var t, s, xs := times[|times| - 1], WindowStart(times, limit, window), Admissions(times, limit, window);
            var n := |xs| - limit;
            && n >= 0 && xs[n] >= s && (n > 0 ==> xs[n - 1] < s)
            && (CountIn(xs, t - window + 1, t + 1) == limit <==> n == 0 || t - xs[n - 1] >= window)
  {
    var t, s, xs := times[|times| - 1], WindowStart(times, limit, window), Admissions(times, limit, window);
    RejectedMeansWindowFull(times, limit, window);
    AdmissionsInOrder(times, limit, window);
    CountsExactlyIff(xs, t - window + 1, s, t + 1, limit);
  }

  /** In an ordered list with `limit` entries from `start` on, and no more from `from` on iff the one before them is earlier. */
  lemma CountsExactlyIff(xs: seq<int>, from: int, start: int, to: int, limit: int)
    requires NonDecreasing(xs) && (forall i :: 0 <= i < |xs| ==> xs[i] < to)
    requires from <= start && limit > 0 && CountIn(xs, start, to) == limit
    ensures var n := |xs| - limit;
            && n >= 0 && xs[n] >= start && (n > 0 ==> xs[n - 1] < start)
            && (CountIn(xs, from, to) == limit <==> n == 0 || xs[n - 1] < from)
  {
    LateOnesAreLast(xs, start, to);
    LateOnesAreLast(xs, from, to);
  }

  lemma {:induction false} AdmissionsInOrder(times: seq<int>, limit: int, window: int)
    requires NonDecreasing(times)
    ensures NonDecreasing(Admissions(times, limit, window))
    ensures times != [] ==> forall i :: 0 <= i < |Admissions(times, limit, window)| ==> Admissions(times, limit, window)[i] <= times[|times| - 1]
    decreases |times|
  {
    if times != [] {
      AdmissionsInOrder(times[..|times| - 1], limit, window);
    }
  }

  /** In an ordered list without entries from `to` on, those from `from` on are the last ones. */
  lemma {:induction false} LateOnesAreLast(xs: seq<int>, from: int, to: int)
    requires NonDecreasing(xs) && forall i :: 0 <= i < |xs| ==> xs[i] < to
    ensures CountIn(xs, from, to) <= |xs|
    ensures forall i :: 0 <= i < |xs| ==> (xs[i] >= from <==> i >= |xs| - CountIn(xs, from, to))
    decreases |xs|
  {
    if xs != [] {
      LateOnesAreLast(xs[..|xs| - 1], from, to);
    }
  }

  lemma PlayOne(before: seq<int>, now: int, limit: int, window: int)
    ensures var (next, allowed) := Decide(Play(before, limit, window).state, limit, window, now);
            && Play(before + [now], limit, window).state == next
            && Admissions(before + [now], limit, window) == Admissions(before, limit, window) + (if allowed then [now] else [])
            && LastAllowed(before + [now], limit, window) == allowed
  {
    assert (before + [now])[..|before|] == before;
  }

  lemma ExampleBegins()
    ensures Play([0, 9], 2, 10).state == RateWindow(Some(0), 2) && Admissions([0, 9], 2, 10) == [0, 9]
  {
    PlayOne([], 0, 2, 10);
    assert [] + [0] == [0] && [0] + [9] == [0, 9];
    PlayOne([0], 9, 2, 10);
  }

  lemma ExampleGoesOn()
    ensures Play([0, 9, 10, 11], 2, 10).state == RateWindow(Some(10), 2) && Admissions([0, 9, 10, 11], 2, 10) == [0, 9, 10, 11]
  {
    ExampleBegins();
    assert [0, 9] + [10] == [0, 9, 10] && [0, 9, 10] + [11] == [0, 9, 10, 11];
    PlayOne([0, 9], 10, 2, 10);
    PlayOne([0, 9, 10], 11, 2, 10);
  }

  /** A rejection after more than `limit` admissions in the last `window`: calls at 0, 9, 10, 11, 12. */
  lemma RejectionAfterThreeInTen()
    ensures var times := [0, 9, 10, 11, 12];
            && !LastAllowed(times, 2, 10)
            && CountIn(Admissions(times, 2, 10), 12 - 10 + 1, 12 + 1) == 3
  {
    ExampleGoesOn();
    assert [0, 9, 10, 11] + [12] == [0, 9, 10, 11, 12] && [0, 9, 10, 11] + [] == [0, 9, 10, 11];
    PlayOne([0, 9, 10, 11], 12, 2, 10);
    CountOfExample();
  }

  lemma CountOfExample()
    ensures CountIn([0, 9, 10, 11], 3, 13) == 3
  {
    assert [0, 9, 10, 11][..3] == [0, 9, 10] && [0, 9, 10][..2] == [0, 9] && [0, 9][..1] == [0];
    assert CountIn([0, 9], 3, 13) == 1;
  }

  lemma {:induction false} CountSplit(xs: seq<int>, a: int, b: int, c: int)
    requires a <= b <= c
    ensures CountIn(xs, a, c) == CountIn(xs, a, b) + CountIn(xs, b, c)
  {
    if xs != [] { CountSplit(xs[..|xs| - 1], a, b, c); }
  }

  // ---- Many keys ----

  /** One call of allowRate; callers bring limits and windows of their own, and a key's limit may change. */
  datatype Call = Call(key: string, limit: int, window: int, now: int)

  function Answer(state: RateWindow, c: Call): (RateWindow, bool) {
    if c.limit <= 0 then (state, true) else Decide(state, c.limit, c.window, c.now)
  }

  /** The counters after a sequence of calls. */
  function PlayAll(calls: seq<Call>): map<string, RateWindow> {
    if calls == [] then map[]
    else
      var rates, c := PlayAll(calls[..|calls| - 1]), calls[|calls| - 1];
      if c.limit <= 0 then rates else rates[c.key := Answer(Lookup(rates, c.key), c).0]
  }

  /** One counter after a sequence of calls. */
  function Counter(calls: seq<Call>): RateWindow {
    if calls == [] then ZERO else Answer(Counter(calls[..|calls| - 1]), calls[|calls| - 1]).0
  }

  function OfKey(calls: seq<Call>, key: string): seq<Call> {
    if calls == [] then []
    else OfKey(calls[..|calls| - 1], key) + if calls[|calls| - 1].key == key then [calls[|calls| - 1]] else []
  }

  /** A key's counter depends on that key's calls alone, however the keys, limits and windows are interleaved. */
  lemma {:induction false} KeysAreIndependent(calls: seq<Call>, key: string)
    ensures Lookup(PlayAll(calls), key) == Counter(OfKey(calls, key))
    decreases |calls|
  {
    if calls != [] {
      KeysAreIndependent(calls[..|calls| - 1], key);
      var earlier, c := OfKey(calls[..|calls| - 1], key), calls[|calls| - 1];
      assert (earlier + [c])[..|earlier|] == earlier;
      assert earlier + [] == earlier;
    }
  }

  /** The decision for call `j` when every key has a counter of its own. */
  predicate DecisionAt(calls: seq<Call>, j: nat)
    requires j < |calls|
  {
    Answer(Counter(OfKey(calls[..j], calls[j].key)), calls[j]).1
  }

  function TimesOf(calls: seq<Call>): seq<int> {
    if calls == [] then [] else TimesOf(calls[..|calls| - 1]) + [calls[|calls| - 1].now]
  }

  /** Calls with one positive limit and one window are a run of one key. */
  lemma {:induction false} OneLimitPlays(calls: seq<Call>, limit: int, window: int)
    requires limit > 0 && forall i :: 0 <= i < |calls| ==> calls[i].limit == limit && calls[i].window == window
    ensures Counter(calls) == Play(TimesOf(calls), limit, window).state
    decreases |calls|
  {
    if calls != [] {
      var before, c := calls[..|calls| - 1], calls[|calls| - 1];
      OneLimitPlays(before, limit, window);
      assert (TimesOf(before) + [c.now])[..|TimesOf(before)|] == TimesOf(before);
    }
  }

  lemma {:induction false} OfKeyIsPart(calls: seq<Call>, key: string)
    ensures forall c :: c in OfKey(calls, key) ==> c in calls && c.key == key
    decreases |calls|
  {
    if calls != [] {
      OfKeyIsPart(calls[..|calls| - 1], key);
    }
  }

  /** A key whose calls all bring the same limit and window is decided as if it were alone, so the bounds above hold of it. */
  lemma ConstantKeyPlays(calls: seq<Call>, j: nat, limit: int, window: int)
    requires j < |calls| && limit > 0
    requires forall i :: 0 <= i <= j && calls[i].key == calls[j].key ==> calls[i].limit == limit && calls[i].window == window
    ensures DecisionAt(calls, j) == LastAllowed(TimesOf(OfKey(calls[..j], calls[j].key)) + [calls[j].now], limit, window)
  {
    var earlier := OfKey(calls[..j], calls[j].key);
    OfKeyIsPart(calls[..j], calls[j].key);
    forall i | 0 <= i < |earlier| ensures earlier[i].limit == limit && earlier[i].window == window {
      assert earlier[i] in earlier;
    }
    OneLimitPlays(earlier, limit, window);
    assert (TimesOf(earlier) + [calls[j].now])[..|TimesOf(earlier)|] == TimesOf(earlier);
  }

  /** One more call through the limiter object. */
  method ServeOne(limiter: RateLimiter, ghost done: seq<Call>, c: Call) returns (allowed: bool)
    requires limiter.rates == PlayAll(done)
    modifies limiter
    ensures limiter.rates == PlayAll(done + [c])
    ensures allowed == DecisionAt(done + [c], |done|)
  {
    assert (done + [c])[..|done|] == done;
    KeysAreIndependent(done, c.key);
    allowed := limiter.AllowRate(c.key, c.limit, c.window, c.now);
  }

  /** Serving the calls one by one through the limiter object gives those counters and decisions. */
  method Serve(limiter: RateLimiter, calls: seq<Call>) returns (decisions: seq<bool>)
    requires limiter.rates == map[]
    modifies limiter
    ensures limiter.rates == PlayAll(calls)
    ensures |decisions| == |calls| && forall i :: 0 <= i < |calls| ==> decisions[i] == DecisionAt(calls[..i + 1], i)
  {
    decisions := [];
    for i := 0 to |calls|
      invariant limiter.rates == PlayAll(calls[..i]) && |decisions| == i
      invariant forall j :: 0 <= j < i ==> decisions[j] == DecisionAt(calls[..j + 1], j)
    {
      assert calls[..i + 1] == calls[..i] + [calls[i]];
      var allowed := ServeOne(limiter, calls[..i], calls[i]);
      decisions := decisions + [allowed];
    }
    assert calls[..|calls|] == calls;
  }
}

/**
 The per-account concurrency limiter: a concurrent map from account to a buffered channel of the
 requested capacity, replaced by compare-and-swap when the limit changes and deleted on a reset.
 A slot is a value in the channel it was taken from, so old channels drain on their own.
 Channels are numbered in the order they are made ("generations").
 */
module Limiter {
  import opened Prelude
  import Runs

  type Account = int
  type Thread = int

  /** A buffered channel: capacity and number of buffered values. */
  datatype Channel = Channel(account: Account, capacity: int, buffered: int)

  datatype Pc =
    | Looping(account: Account, limit: int, wait: bool)
    | Loaded(account: Account, limit: int, wait: bool, seen: int, version: int)
    | Chosen(account: Account, limit: int, wait: bool, channel: int)
    | Waiting(account: Account, limit: int, channel: int)
    | Holding(channel: int)
    | Refused
    | Released

  /** History: how often an account's entry changed, which limits were asked for, which accounts were reset. */
  datatype History = History(writes: map<Account, int>, asked: set<(Account, int)>, resets: set<Account>)

  datatype State = State(channels: seq<Channel>, entries: map<Account, int>, threads: map<Thread, Pc>, past: History)

  /** An atomic action of a thread inside acquire, or of its release closure. */
  datatype Action = Load | Swap | TrySend | WaitedSend | GiveUp | Release

  datatype Event =
    | Call(t: Thread, account: Account, limit: int, wait: int)
    | Do(t: Thread, action: Action)
    | Reset(account: Account)

  function Writes(s: State, a: Account): int {
    if a in s.past.writes then s.past.writes[a] else 0
  }

  function Install(s: State, a: Account, limit: int): State {
    s.(channels := s.channels + [Channel(a, limit, 0)],
       entries := s.entries[a := |s.channels|],
       past := s.past.(writes := s.past.writes[a := Writes(s, a) + 1]))
  }

  function Move(s: State, t: Thread, pc: Pc): State { s.(threads := s.threads[t := pc]) }

  function Send(s: State, c: int): State
    requires 0 <= c < |s.channels|
  {
    s.(channels := s.channels[c := s.channels[c].(buffered := s.channels[c].buffered + 1)])
  }

  /** Whether channel `c` takes one more value without blocking. */
  predicate HasRoom(s: State, c: int) {
    0 <= c < |s.channels| && s.channels[c].buffered < s.channels[c].capacity
  }

  /** limiters.LoadOrStore and the comparison of the limits. */
  function LoadStep(s: State, t: Thread): Option<State>
    requires t in s.threads && s.threads[t].Looping?
  {
    var pc := s.threads[t];
    if pc.account !in s.entries then
      Some(Move(Install(s, pc.account, pc.limit), t, Chosen(pc.account, pc.limit, pc.wait, |s.channels|)))
    else
      var c := s.entries[pc.account];
      if c < 0 || c >= |s.channels| then None
      else if s.channels[c].capacity == pc.limit then Some(Move(s, t, Chosen(pc.account, pc.limit, pc.wait, c)))
      else Some(Move(s, t, Loaded(pc.account, pc.limit, pc.wait, c, Writes(s, pc.account))))
  }

  /** limiters.CompareAndSwap: succeeds only on the entry that was loaded. */
  function SwapStep(s: State, t: Thread): Option<State>
    requires t in s.threads && s.threads[t].Loaded?
  {
    var pc := s.threads[t];
    if pc.account in s.entries && s.entries[pc.account] == pc.seen then
      Some(Move(Install(s, pc.account, pc.limit), t, Chosen(pc.account, pc.limit, pc.wait, |s.channels|)))
    else Some(Move(s, t, Looping(pc.account, pc.limit, pc.wait)))
  }

  function SendStep(s: State, t: Thread, c: int, otherwise: Option<State>): Option<State> {
    if HasRoom(s, c) then Some(Move(Send(s, c), t, Holding(c))) else otherwise
  }

  /** The release closure: receiving from an empty channel would block. */
  function ReleaseStep(s: State, t: Thread, c: int): Option<State> {
    if c < 0 || c >= |s.channels| || s.channels[c].buffered <= 0 then None
    else
      Some(Move(s.(channels := s.channels[c := s.channels[c].(buffered := s.channels[c].buffered - 1)]), t, Released))
  }

  function ThreadStep(s: State, t: Thread, action: Action): Option<State>
    requires t in s.threads
  {
    var pc := s.threads[t];
    if action.Load? && pc.Looping? then LoadStep(s, t)
    else if action.Swap? && pc.Loaded? then SwapStep(s, t)
    else if action.TrySend? && pc.Chosen? then
      SendStep(s, t, pc.channel, Some(Move(s, t, if pc.wait then Waiting(pc.account, pc.limit, pc.channel) else Refused)))
    else if action.WaitedSend? && pc.Waiting? then SendStep(s, t, pc.channel, None)
    else if action.GiveUp? && pc.Waiting? then Some(Move(s, t, Refused))
    else if action.Release? && pc.Holding? then ReleaseStep(s, t, pc.channel)
    else None
  }

  function Step(s: State, e: Event): Option<State> {
    match e
    case Call(t, a, limit, wait) =>
      if t in s.threads then None
      else
        var l := if limit <= 0 then 1 else limit;
        Some(Move(s, t, Looping(a, l, wait > 0)).(past := s.past.(asked := s.past.asked + {(a, l)})))
    case Do(t, action) => if t in s.threads then ThreadStep(s, t, action) else None
    case Reset(a) =>
      if a !in s.entries then Some(s.(past := s.past.(resets := s.past.resets + {a})))
      else Some(s.(entries := s.entries - {a},
                   past := s.past.(resets := s.past.resets + {a}, writes := s.past.writes[a := Writes(s, a) + 1])))
  }

  function Init(): State { State([], map[], map[], History(map[], {}, {})) }

  // ---- Invariant ----

  /** The threads that hold a slot of channel `c`. */
  ghost function Holders(threads: map<Thread, Pc>, c: int): set<Thread> {
    set t | t in threads && threads[t] == Holding(c)
  }

  ghost predicate PcOk(s: State, pc: Pc) {
    match pc
    case Looping(a, l, _) => l > 0 && (a, l) in s.past.asked
    case Loaded(a, l, _, c, v) =>
      && l > 0 && (a, l) in s.past.asked && 0 <= c < |s.channels| && s.channels[c].capacity != l
      && s.channels[c].account == a && v <= Writes(s, a)
      && (v == Writes(s, a) <==> a in s.entries && s.entries[a] == c)
    case Chosen(a, l, _, c) => 0 <= c < |s.channels| && s.channels[c].account == a && s.channels[c].capacity == l
    case Waiting(a, l, c) => 0 <= c < |s.channels| && s.channels[c].account == a && s.channels[c].capacity == l
    case Holding(c) => 0 <= c < |s.channels|
    case _ => true
  }

  /** Each channel buffers exactly one value per holder and never more than its capacity. */
  ghost predicate ChannelOk(s: State, c: int)
    requires 0 <= c < |s.channels|
  {
    var ch := s.channels[c];
    && ch.buffered == |Holders(s.threads, c)|
    && 0 <= ch.buffered <= ch.capacity
    && (ch.account, ch.capacity) in s.past.asked
    && (ch.account !in s.past.resets && OneLimit(s, ch.account) ==> ch.account in s.entries && s.entries[ch.account] == c)
  }

  /** Every call for the account so far asked for the same limit. */
  ghost predicate OneLimit(s: State, a: Account) {
    forall l, m :: (a, l) in s.past.asked && (a, m) in s.past.asked ==> l == m
  }

  ghost predicate EntriesOk(s: State) {
    && (forall a :: a in s.entries ==> 0 <= s.entries[a] < |s.channels| && s.channels[s.entries[a]].account == a)
    && (forall p :: p in s.past.asked ==> p.1 > 0)
  }

  ghost predicate Inv(s: State) {
    && EntriesOk(s)
    && (forall t :: t in s.threads ==> PcOk(s, s.threads[t]))
    && (forall c :: 0 <= c < |s.channels| ==> ChannelOk(s, c))
  }

  lemma HoldersMove(threads: map<Thread, Pc>, t: Thread, pc: Pc, c: int)
    ensures Holders(threads[t := pc], c) ==
            if pc == Holding(c) then Holders(threads, c) + {t} else Holders(threads, c) - {t}
  {
  }

  /** What an event may change for threads other than its own. */
  ghost predicate Grows(s: State, s': State) {
    && |s.channels| <= |s'.channels|
    && (forall c :: 0 <= c < |s.channels| ==>
          s'.channels[c].account == s.channels[c].account && s'.channels[c].capacity == s.channels[c].capacity)
    && s.past.asked <= s'.past.asked && s.past.resets <= s'.past.resets
    && (forall a {:trigger Writes(s', a)} :: Writes(s, a) <= Writes(s', a)
          && (Writes(s, a) == Writes(s', a) ==>
                (a in s'.entries <==> a in s.entries) && (a in s.entries ==> s'.entries[a] == s.entries[a])))
  }

  lemma InstallGrows(s: State, a: Account, limit: int)
    ensures Grows(s, Install(s, a, limit))
  {
  }

  lemma StepGrows(s: State, e: Event)
    requires Step(s, e).Some?
    ensures Grows(s, Step(s, e).value)
    ensures forall u :: u in s.threads && e != Do(u, if e.Do? then e.action else Load) ==>
              u in Step(s, e).value.threads && Step(s, e).value.threads[u] == s.threads[u]
  {
    OthersKeepPc(s, e);
    if e.Do? {
      ThreadGrows(s, e.t, e.action);
    }
  }

  lemma ThreadGrows(s: State, t: Thread, action: Action)
    requires t in s.threads && ThreadStep(s, t, action).Some?
    ensures Grows(s, ThreadStep(s, t, action).value)
  {
    if action.Load? || action.Swap? {
      InstallGrows(s, s.threads[t].account, s.threads[t].limit);
    }
  }

  lemma OthersKeepPc(s: State, e: Event)
    requires Step(s, e).Some?
    ensures forall u :: u in s.threads && e != Do(u, if e.Do? then e.action else Load) ==>
              u in Step(s, e).value.threads && Step(s, e).value.threads[u] == s.threads[u]
  {
  }

  lemma OwnPc(s: State, t: Thread, action: Action)
    requires t in s.threads && PcOk(s, s.threads[t]) && EntriesOk(s) && ThreadStep(s, t, action).Some?
    ensures PcOk(ThreadStep(s, t, action).value, ThreadStep(s, t, action).value.threads[t])
  {
  }

  lemma PcStep(s: State, e: Event, u: Thread)
    requires Step(s, e).Some? && u in Step(s, e).value.threads
    requires EntriesOk(s)
    requires u in s.threads ==> PcOk(s, s.threads[u])
    ensures PcOk(Step(s, e).value, Step(s, e).value.threads[u])
  {
    StepGrows(s, e);
    if e.Do? && e.t == u {
      OwnPc(s, u, e.action);
    }
  }

  lemma EntriesStep(s: State, e: Event)
    requires EntriesOk(s) && Step(s, e).Some?
    ensures EntriesOk(Step(s, e).value)
  {
    if e.Do? && (e.action.Load? || e.action.Swap?) {
      assert EntriesOk(Install(s, s.threads[e.t].account, s.threads[e.t].limit));
    }
  }

  /** Buffered values and holders move together. */
  lemma CountStep(s: State, t: Thread, action: Action, c: int)
    requires t in s.threads && PcOk(s, s.threads[t]) && ThreadStep(s, t, action).Some?
    requires 0 <= c < |s.channels| && s.channels[c].buffered == |Holders(s.threads, c)| <= s.channels[c].capacity
    ensures var s' := ThreadStep(s, t, action).value;
            s'.channels[c].buffered == |Holders(s'.threads, c)| <= s'.channels[c].capacity
  {
    var s' := ThreadStep(s, t, action).value;
    HoldersMove(s.threads, t, s'.threads[t], c);
    assert s'.threads == s.threads[t := s'.threads[t]];
    assert t in Holders(s.threads, c) <==> s.threads[t] == Holding(c);
  }

  /** A channel just made has no holders. */
  lemma FreshChannel(s: State, t: Thread, pc: Pc)
    requires forall u :: u in s.threads ==> PcOk(s, s.threads[u])
    requires pc != Holding(|s.channels|)
    ensures Holders(s.threads[t := pc], |s.channels|) == {}
  {
    forall u | u in s.threads ensures s.threads[u] != Holding(|s.channels|) {
      assert PcOk(s, s.threads[u]);
    }
  }

  /** While all calls ask for one limit and nothing is reset, the account has one channel. */
  lemma EntryStep(s: State, e: Event, c: int)
    requires EntriesOk(s) && Step(s, e).Some? && 0 <= c < |Step(s, e).value.channels|
    requires forall d :: 0 <= d < |s.channels| ==> ChannelOk(s, d)
    requires e.Do? && e.t in s.threads ==> PcOk(s, s.threads[e.t])
    ensures var s' := Step(s, e).value; var ch := s'.channels[c];
            && (ch.account, ch.capacity) in s'.past.asked
            && (ch.account !in s'.past.resets && OneLimit(s', ch.account) ==>
                  ch.account in s'.entries && s'.entries[ch.account] == c)
  {
    var s' := Step(s, e).value;
    var a := s'.channels[c].account;
    StepGrows(s, e);
    assert OneLimit(s', a) ==> OneLimit(s, a);
    if c < |s.channels| { assert ChannelOk(s, c); }
  }

  lemma ChannelStep(s: State, e: Event, s': State, c: int)
    requires Inv(s) && Step(s, e) == Some(s') && 0 <= c < |s'.channels|
    ensures ChannelOk(s', c)
  {
    EntryStep(s, e, c);
    if c >= |s.channels| {
      FreshChannel(s, e.t, s'.threads[e.t]);
      return;
    }
    assert ChannelOk(s, c);
    if e.Do? {
      CountStep(s, e.t, e.action, c);
    } else if e.Call? {
      HoldersMove(s.threads, e.t, s'.threads[e.t], c);
    }
  }

  lemma InvStep(s: State, e: Event)
    requires Inv(s) && Step(s, e).Some?
    ensures Inv(Step(s, e).value)
  {
    var s' := Step(s, e).value;
    EntriesStep(s, e);
    forall u | u in s'.threads ensures PcOk(s', s'.threads[u]) { PcStep(s, e, u); }
    forall c | 0 <= c < |s'.channels| ensures ChannelOk(s', c) { ChannelStep(s, e, s', c); }
  }

  // ---- What holds over every run ----

  ghost predicate Reaches(run: seq<Event>, s: State) {
    Runs.Exec(Step, Init(), run) == Some(s)
  }

  lemma EveryRunKeepsInv(run: seq<Event>, s: State)
    requires Reaches(run, s)
    ensures Inv(s)
  {
    forall p, e | Inv(p) && Step(p, e).Some? ensures Inv(Step(p, e).value) { InvStep(p, e); }
    Runs.Invariant(Step, p => Inv(p), Init(), run);
  }

  /** A holder's release never blocks, and frees a slot of the very channel the slot came from. */
  lemma ReleaseReturnsOwnSlot(run: seq<Event>, s: State, t: Thread, c: int)
    requires Reaches(run, s) && t in s.threads && s.threads[t] == Holding(c)
    ensures Step(s, Do(t, Release)).Some?
    ensures var s' := Step(s, Do(t, Release)).value;
            && 0 <= c < |s.channels| && s'.channels == s.channels[c := s.channels[c].(buffered := s.channels[c].buffered - 1)]
            && HasRoom(s', c) && s'.entries == s.entries
  {
    EveryRunKeepsInv(run, s);
    assert PcOk(s, s.threads[t]) && ChannelOk(s, c);
    assert t in Holders(s.threads, c);
  }

  /** Every channel, installed or replaced, buffers one value per holder and respects its own capacity. */
  lemma ChannelsCountHolders(run: seq<Event>, s: State, c: int)
    requires Reaches(run, s) && 0 <= c < |s.channels|
    ensures s.channels[c].buffered == |Holders(s.threads, c)| <= s.channels[c].capacity
  {
    EveryRunKeepsInv(run, s);
    assert ChannelOk(s, c);
  }

  /**
   The first send takes a slot of the chosen channel exactly when fewer are held than it has; otherwise the thread
   queues, or is refused when it may not wait.
   */
  lemma FirstSendTakesFreeSlot(run: seq<Event>, s: State, t: Thread, a: Account, limit: int, wait: bool, c: int)
    requires Reaches(run, s) && t in s.threads && s.threads[t] == Chosen(a, limit, wait, c)
    ensures 0 <= c < |s.channels| && Step(s, Do(t, TrySend)).Some?
    ensures var s' := Step(s, Do(t, TrySend)).value;
            && s'.threads == s.threads[t := if |Holders(s.threads, c)| < s.channels[c].capacity then Holding(c)
                                            else if wait then Waiting(a, limit, c) else Refused]
            && s'.entries == s.entries
  {
    EveryRunKeepsInv(run, s);
    assert PcOk(s, s.threads[t]) && ChannelOk(s, c);
  }

  /** A queued thread can take a slot exactly when one is free, and can give up at any time. */
  lemma QueuedThreadTakesFreeSlot(run: seq<Event>, s: State, t: Thread, a: Account, limit: int, c: int)
    requires Reaches(run, s) && t in s.threads && s.threads[t] == Waiting(a, limit, c)
    ensures 0 <= c < |s.channels|
    ensures Step(s, Do(t, WaitedSend)).Some? <==> |Holders(s.threads, c)| < s.channels[c].capacity
    ensures Step(s, Do(t, WaitedSend)).Some? ==> Step(s, Do(t, WaitedSend)).value.threads == s.threads[t := Holding(c)]
    ensures Step(s, Do(t, GiveUp)) == Some(s.(threads := s.threads[t := Refused]))
  {
    EveryRunKeepsInv(run, s);
    assert PcOk(s, s.threads[t]) && ChannelOk(s, c);
  }

  /** A compare-and-swap succeeds exactly when nobody has changed the account's entry since it was loaded. */
  lemma SwapSucceedsIffUnchanged(run: seq<Event>, s: State, t: Thread)
    requires Reaches(run, s) && t in s.threads && s.threads[t].Loaded?
    ensures Step(s, Do(t, Swap)).Some?
    ensures Step(s, Do(t, Swap)).value.threads[t].Chosen? <==>
            Writes(s, s.threads[t].account) == s.threads[t].version
  {
    EveryRunKeepsInv(run, s);
    assert PcOk(s, s.threads[t]);
  }

  /** limiterChannel returns a channel of the requested capacity that is the installed entry as it returns. */
  lemma ChosenChannelIsInstalled(run: seq<Event>, s: State, t: Thread, action: Action)
    requires Reaches(run, s) && t in s.threads && !s.threads[t].Chosen?
    requires Step(s, Do(t, action)).Some? && Step(s, Do(t, action)).value.threads[t].Chosen?
    ensures var s' := Step(s, Do(t, action)).value; var pc := s'.threads[t];
            && pc.account == s.threads[t].account && pc.limit == s.threads[t].limit
            && pc.account in s'.entries && s'.entries[pc.account] == pc.channel
            && 0 <= pc.channel < |s'.channels| && s'.channels[pc.channel].capacity == pc.limit
  {
    EveryRunKeepsInv(run, s);
    assert PcOk(s, s.threads[t]);
  }

  /** The requests of an account that are being served. */
  ghost function InFlight(s: State, a: Account, upTo: int): set<Thread>
    requires upTo <= |s.channels|
  {
    set t | t in s.threads && s.threads[t].Holding? && 0 <= s.threads[t].channel < upTo
            && s.channels[s.threads[t].channel].account == a
  }

  /** The limits of the account's channels that still hold requests, added up. */
  function UndrainedLimits(channels: seq<Channel>, a: Account): int {
    if channels == [] then 0
    else
      var last := channels[|channels| - 1];
      UndrainedLimits(channels[..|channels| - 1], a)
      + if last.account == a && last.buffered > 0 then last.capacity else 0
  }

  lemma InFlightSplit(s: State, a: Account, n: nat)
    requires n < |s.channels|
    ensures InFlight(s, a, n + 1) ==
            InFlight(s, a, n) + if s.channels[n].account == a then Holders(s.threads, n) else {}
    ensures InFlight(s, a, n) !! Holders(s.threads, n)
  {
  }

  lemma {:induction false} InFlightUpTo(s: State, a: Account, n: nat)
    requires n <= |s.channels| && forall c :: 0 <= c < |s.channels| ==> ChannelOk(s, c)
    ensures |InFlight(s, a, n)| <= UndrainedLimits(s.channels[..n], a)
    decreases n
  {
    if n == 0 {
      assert InFlight(s, a, 0) == {};
    } else {
      InFlightUpTo(s, a, n - 1);
      InFlightSplit(s, a, n - 1);
      assert ChannelOk(s, n - 1);
      assert s.channels[..n][..n - 1] == s.channels[..n - 1];
    }
  }

  /** In-flight requests never exceed the limits of the account's undrained channels together. */
  lemma InFlightWithinUndrainedLimits(run: seq<Event>, s: State, a: Account)
    requires Reaches(run, s)
    ensures |InFlight(s, a, |s.channels|)| <= UndrainedLimits(s.channels, a)
  {
    EveryRunKeepsInv(run, s);
    InFlightUpTo(s, a, |s.channels|);
    assert s.channels[..|s.channels|] == s.channels;
  }

  /** Without a limit change or a reset they never exceed the limit. */
  lemma InFlightWithinLimit(run: seq<Event>, s: State, a: Account, limit: int)
    requires Reaches(run, s)
    requires a !in s.past.resets && OneLimit(s, a) && (a, limit) in s.past.asked
    ensures |InFlight(s, a, |s.channels|)| <= limit
  {
    EveryRunKeepsInv(run, s);
    var served := InFlight(s, a, |s.channels|);
    forall t | t in served ensures a in s.entries && t in Holders(s.threads, s.entries[a]) {
      assert ChannelOk(s, s.threads[t].channel);
    }
    if a in s.entries {
      Subset(served, Holders(s.threads, s.entries[a]));
      assert ChannelOk(s, s.entries[a]);
    } else {
      assert served == {};
    }
  }
}

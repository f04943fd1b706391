/**
 acquire, limiterChannel and the release closure as the code a thread runs, with any interference by
 other threads between two atomic actions.
 */
module LimiterTable {
  import opened Prelude
  import opened Limiter
  import Runs

  predicate IsBy(e: Event, t: Thread) { !e.Reset? && e.t == t }

  /** What interference keeps: the invariant and where the thread stands; write counts only grow. */
  ghost predicate StandsAt(s: State, t: Thread, pc: Option<Pc>, a: Account, writes: int) {
    Inv(s) && (if t in s.threads then Some(s.threads[t]) else None) == pc && writes <= Writes(s, a)
  }

  lemma OtherLeavesThread(s: State, e: Event, t: Thread, pc: Option<Pc>, a: Account, writes: int)
    requires Step(s, e).Some? && !IsBy(e, t) && StandsAt(s, t, pc, a, writes)
    ensures StandsAt(Step(s, e).value, t, pc, a, writes)
  {
    InvStep(s, e);
    StepGrows(s, e);
    assert Writes(s, a) <= Writes(Step(s, e).value, a);
  }

  lemma OthersLeaveThread(s: State, t: Thread, a: Account, es: seq<Event>)
    requires Inv(s)
    ensures StandsAt(Runs.Interleave(Step, e => IsBy(e, t), s, es), t, if t in s.threads then Some(s.threads[t]) else None, a, Writes(s, a))
  {
    var pc, writes := if t in s.threads then Some(s.threads[t]) else None, Writes(s, a);
    var inv := p => StandsAt(p, t, pc, a, writes);
    forall p, e | inv(p) && !IsBy(e, t) && Step(p, e).Some? ensures inv(Step(p, e).value) { OtherLeavesThread(p, e, t, pc, a, writes); }
    Runs.InterleaveKeeps(Step, e => IsBy(e, t), inv, s, es);
  }

  /** What other threads do during an acquire: in each round of limiterChannel, before the send, in the queue. */
  datatype Interference = Interference(rounds: seq<(seq<Event>, seq<Event>)>, beforeSend: seq<Event>, queued: seq<Event>)

  /** The thread has chosen the account's installed channel, which has the limit it asked for. */
  ghost predicate IsChosen(s: State, t: Thread, pc: Pc, ch: int)
    requires pc.Looping?
  {
    && t in s.threads && s.threads[t] == Chosen(pc.account, pc.limit, pc.wait, ch)
    && 0 <= ch < |s.channels| && s.channels[ch].capacity == pc.limit && s.channels[ch].account == pc.account
    && pc.account in s.entries && s.entries[pc.account] == ch
  }

  /** The account has a channel of the capacity asked for. */
  ghost predicate HasChannel(s: State, a: Account, limit: int) {
    a in s.entries && 0 <= s.entries[a] < |s.channels| && s.channels[s.entries[a]].capacity == limit
  }

  /** What choosing a channel comes to when nobody else gets in: the account's own, if it has the right capacity, else a new one. */
  ghost predicate Picks(s: State, s': State, a: Account, limit: int, ch: int) {
    if HasChannel(s, a, limit) then ch == s.entries[a] && s'.channels == s.channels
    else ch == |s.channels| && s'.channels == s.channels + [Channel(a, limit, 0)]
  }

  /** As many slots of channel `c` are held as it has. */
  ghost predicate IsFull(s: State, c: int) {
    0 <= c < |s.channels| && s.channels[c].capacity <= |Holders(s.threads, c)|
  }

  /** The account's channel has the capacity asked for, and that many slots of it are held. */
  ghost predicate AllTaken(s: State, a: Account, limit: int) {
    HasChannel(s, a, limit) && limit <= |Holders(s.threads, s.entries[a])|
  }

  /** Without interference the channel chosen is full exactly when all slots were taken at the call. */
  lemma FullIffAllTaken(s: State, s1: State, s': State, a: Account, limit: int, ch: int)
    requires Inv(s) && Inv(s') && limit > 0 && s1.channels == s.channels && s1.entries == s.entries && Picks(s1, s', a, limit, ch)
    ensures IsFull(s', ch) <==> AllTaken(s, a, limit)
  {
    assert ChannelOk(s', ch);
    if HasChannel(s, a, limit) {
      assert ChannelOk(s, ch);
    }
  }

  /** The run grows by what the others do. */
  lemma Interferes(s0: State, before: seq<Event>, s: State, t: Thread, es: seq<Event>) returns (run: seq<Event>)
    requires Runs.Exec(Step, s0, before) == Some(s)
    ensures Runs.Exec(Step, s0, run) == Some(Runs.Interleave(Step, e => IsBy(e, t), s, es))
    ensures before <= run
  {
    var more := Runs.InterleaveRun(Step, e => IsBy(e, t), s, es);
    Runs.ExecAppend(Step, s0, before, more);
    run := before + more;
  }

  class Table {
    var channels: seq<Channel>
    var entries: map<Account, int>
    var threads: map<Thread, Pc>
    var past: History

    function Abs(): State
      reads this
    {
      State(channels, entries, threads, past)
    }

    constructor ()
      ensures Abs() == Init()
    {
      channels, entries, threads, past := [], map[], map[], History(map[], {}, {});
    }

    method Become(s: State)
      modifies this
      ensures Abs() == s
    {
      channels, entries, threads, past := s.channels, s.entries, s.threads, s.past;
    }

    /** Lets other threads act. */
    method Yield(t: Thread, ghost a: Account, es: seq<Event>, ghost s0: State, ghost before: seq<Event>) returns (ghost run: seq<Event>)
      requires Inv(Abs()) && Runs.Exec(Step, s0, before) == Some(Abs())
      modifies this
      ensures Inv(Abs()) && Runs.Exec(Step, s0, run) == Some(Abs())
      ensures old(t in threads) ==> t in threads && threads[t] == old(threads[t])
      ensures old(Writes(Abs(), a)) <= Writes(Abs(), a)
      ensures before <= run && (es == [] ==> Abs() == old(Abs()))
    {
      OthersLeaveThread(Abs(), t, a, es);
      run := Interferes(s0, before, Abs(), t, es);
      Become(Runs.Interleave(Step, e => IsBy(e, t), Abs(), es));
    }

    /** Makes a channel of capacity `limit` and installs it for the account. */
    method InstallChannel(a: Account, limit: int) returns (c: int)
      modifies this
      ensures Abs() == Install(old(Abs()), a, limit) && c == old(|channels|)
    {
      c := |channels|;
      past := past.(writes := past.writes[a := Writes(Abs(), a) + 1]);
      channels := channels + [Channel(a, limit, 0)];
      entries := entries[a := c];
    }

    /** limiters.LoadOrStore, then the comparison of the limits. */
    method LoadOrStore(t: Thread) returns (found: Option<int>)
      requires Inv(Abs()) && t in threads && threads[t].Looping?
      modifies this
      ensures Step(old(Abs()), Do(t, Load)) == Some(Abs()) && Inv(Abs())
      ensures var pc := old(threads[t]);
              if found.Some? then Picks(old(Abs()), Abs(), pc.account, pc.limit, found.value)
              else !HasChannel(old(Abs()), pc.account, pc.limit)
      ensures var pc := old(threads[t]);
              if found.Some? then t in threads && threads[t] == Chosen(pc.account, pc.limit, pc.wait, found.value)
              else Abs() == Move(old(Abs()), t, threads[t]) && threads[t].Loaded?
                   && threads[t] == Loaded(pc.account, pc.limit, pc.wait, threads[t].seen, Writes(old(Abs()), pc.account))
    {
      ghost var s := Abs();
      var pc := threads[t];
      var current;
      if pc.account in entries {
        current := entries[pc.account];
      } else {
        current := InstallChannel(pc.account, pc.limit);
      }
      if channels[current].capacity == pc.limit {
        found := Some(current);
        threads := threads[t := Chosen(pc.account, pc.limit, pc.wait, current)];
      } else {
        found := None;
        threads := threads[t := Loaded(pc.account, pc.limit, pc.wait, current, Writes(Abs(), pc.account))];
      }
      InvStep(s, Do(t, Load));
    }

    /** limiters.CompareAndSwap */
    method CompareAndSwap(t: Thread) returns (found: Option<int>)
      requires Inv(Abs()) && t in threads && threads[t].Loaded?
      modifies this
      ensures Step(old(Abs()), Do(t, Swap)) == Some(Abs()) && Inv(Abs())
      ensures var pc := old(threads[t]);
              t in threads && threads[t] ==
                if found.Some? then Chosen(pc.account, pc.limit, pc.wait, found.value)
                else Looping(pc.account, pc.limit, pc.wait)
      ensures var pc := old(threads[t]);
              found.Some? ==> found.value == old(|channels|) && channels == old(channels) + [Channel(pc.account, pc.limit, 0)]
      ensures found.Some? <==> Writes(old(Abs()), old(threads[t]).account) == old(threads[t]).version
      ensures found.None? ==> old(threads[t]).version < Writes(Abs(), old(threads[t]).account)
    {
      ghost var s := Abs();
      var pc := threads[t];
      assert PcOk(s, pc);
      if pc.account in entries && entries[pc.account] == pc.seen {
        var replacement := InstallChannel(pc.account, pc.limit);
        found := Some(replacement);
        threads := threads[t := Chosen(pc.account, pc.limit, pc.wait, replacement)];
      } else {
        found := None;
        threads := threads[t := Looping(pc.account, pc.limit, pc.wait)];
      }
      InvStep(s, Do(t, Swap));
    }

    /** One round of limiterChannel's loop, with `others` before the load and before the swap. */
    method Round(t: Thread, others: (seq<Event>, seq<Event>), ghost s0: State, ghost before: seq<Event>)
      returns (found: Option<int>, ghost run: seq<Event>)
      requires Inv(Abs()) && Runs.Exec(Step, s0, before) == Some(Abs()) && t in threads && threads[t].Looping?
      modifies this
      ensures Inv(Abs()) && Runs.Exec(Step, s0, run) == Some(Abs()) && t in threads
      ensures var pc := old(threads[t]);
              if found.Some? then IsChosen(Abs(), t, pc, found.value)
              else threads[t] == pc && old(Writes(Abs(), threads[t].account)) < Writes(Abs(), pc.account)
      ensures old(Writes(Abs(), threads[t].account)) <= Writes(Abs(), old(threads[t].account))
    {
      ghost var a := threads[t].account;
      run := Yield(t, a, others.0, s0, before);
      ghost var s := Abs();
      found := LoadOrStore(t);
      run := Runs.Extended(Step, s0, run, s, Do(t, Load), Abs());
      StepGrows(s, Do(t, Load));
      assert Writes(s, a) <= Writes(Abs(), a);
      if found.Some? {
        assert PcOk(Abs(), threads[t]);
        return;
      }
      run := Yield(t, a, others.1, s0, run);
      found, run := TrySwap(t, s0, run);
    }

    /** The swap, as part of a run. */
    method TrySwap(t: Thread, ghost s0: State, ghost before: seq<Event>) returns (found: Option<int>, ghost run: seq<Event>)
      requires Inv(Abs()) && Runs.Exec(Step, s0, before) == Some(Abs()) && t in threads && threads[t].Loaded?
      modifies this
      ensures Inv(Abs()) && Runs.Exec(Step, s0, run) == Some(Abs()) && t in threads
      ensures var pc := old(threads[t]);
              if found.Some? then IsChosen(Abs(), t, Looping(pc.account, pc.limit, pc.wait), found.value)
              else threads[t] == Looping(pc.account, pc.limit, pc.wait) && pc.version < Writes(Abs(), pc.account)
      ensures var pc := old(threads[t]);
              found.Some? ==> found.value == old(|channels|) && channels == old(channels) + [Channel(pc.account, pc.limit, 0)]
      ensures found.Some? <==> Writes(old(Abs()), old(threads[t]).account) == old(threads[t]).version
      ensures old(Writes(Abs(), threads[t].account)) <= Writes(Abs(), old(threads[t].account))
    {
      ghost var s, a := Abs(), threads[t].account;
      found := CompareAndSwap(t);
      run := Runs.Extended(Step, s0, before, s, Do(t, Swap), Abs());
      StepGrows(s, Do(t, Swap));
      assert Writes(s, a) <= Writes(Abs(), a);
      assert PcOk(Abs(), threads[t]);
    }

    /**
     limiterChannel: loops until it holds a channel of the requested capacity. Every retry is paid
     for by a change of the entry that another call or a reset made.
     */
    method LimiterChannel(t: Thread, others: seq<(seq<Event>, seq<Event>)>, ghost s0: State, ghost before: seq<Event>)
      returns (ch: int, retries: int, ghost run: seq<Event>)
      requires Inv(Abs()) && Runs.Exec(Step, s0, before) == Some(Abs()) && t in threads && threads[t].Looping?
      modifies this
      ensures Inv(Abs()) && Runs.Exec(Step, s0, run) == Some(Abs())
      ensures IsChosen(Abs(), t, old(threads[t]), ch)
      ensures 0 <= retries <= Writes(Abs(), old(threads[t]).account) - Writes(old(Abs()), old(threads[t]).account)
      ensures retries <= |others|
      ensures others == [] ==> Picks(old(Abs()), Abs(), old(threads[t]).account, old(threads[t]).limit, ch)
    {
      ghost var start := threads[t];
      ghost var writes := Writes(Abs(), start.account);
      retries, run := 0, before;
      while true
        invariant Inv(Abs()) && Runs.Exec(Step, s0, run) == Some(Abs()) && t in threads && threads[t] == start
        invariant 0 <= retries <= |others| && retries <= Writes(Abs(), start.account) - writes
        invariant retries == 0 ==> Abs() == old(Abs())
        decreases |others| - retries
      {
        var quiet := retries == |others|;
        var found;
        if quiet {
          found, run := LastRound(t, s0, run);
        } else {
          found, run := Round(t, others[retries], s0, run);
        }
        if found.Some? { return found.value, retries, run; }
        retries := retries + 1;
      }
    }

    /** A round in which nobody else gets in ends the loop. */
    method LastRound(t: Thread, ghost s0: State, ghost before: seq<Event>) returns (found: Option<int>, ghost run: seq<Event>)
      requires Inv(Abs()) && Runs.Exec(Step, s0, before) == Some(Abs()) && t in threads && threads[t].Looping?
      modifies this
      ensures Inv(Abs()) && Runs.Exec(Step, s0, run) == Some(Abs()) && t in threads
      ensures found.Some? && IsChosen(Abs(), t, old(threads[t]), found.value)
      ensures Picks(old(Abs()), Abs(), old(threads[t]).account, old(threads[t]).limit, found.value)
      ensures old(Writes(Abs(), threads[t].account)) <= Writes(Abs(), old(threads[t].account))
    {
      ghost var s, a := Abs(), threads[t].account;
      found := LoadOrStore(t);
      run := Runs.Extended(Step, s0, before, s, Do(t, Load), Abs());
      StepGrows(s, Do(t, Load));
      assert Writes(s, a) <= Writes(Abs(), a);
      assert PcOk(Abs(), threads[t]);
      if found.None? {
        assert Writes(Abs(), a) == threads[t].version;
        found, run := TrySwap(t, s0, run);
      }
    }

    /** A non-blocking send. */
    method TrySendTo(t: Thread) returns (sent: bool)
      requires Inv(Abs()) && t in threads && threads[t].Chosen?
      modifies this
      ensures Step(old(Abs()), Do(t, TrySend)) == Some(Abs()) && Inv(Abs())
      ensures sent <==> !IsFull(old(Abs()), old(threads[t]).channel)
      ensures var pc := old(threads[t]);
              t in threads && threads[t] ==
                if sent then Holding(pc.channel) else if pc.wait then Waiting(pc.account, pc.limit, pc.channel) else Refused
    {
      ghost var s := Abs();
      var pc := threads[t];
      assert PcOk(s, pc) && ChannelOk(s, pc.channel);
      sent := channels[pc.channel].buffered < channels[pc.channel].capacity;
      if sent {
        channels := channels[pc.channel := channels[pc.channel].(buffered := channels[pc.channel].buffered + 1)];
        threads := threads[t := Holding(pc.channel)];
      } else {
        threads := threads[t := if pc.wait then Waiting(pc.account, pc.limit, pc.channel) else Refused];
      }
      InvStep(s, Do(t, TrySend));
    }

    /** The second select: a free slot, or the timer or context, whichever is picked. */
    method WaitForSlot(t: Thread, pickSlot: bool) returns (sent: bool)
      requires Inv(Abs()) && t in threads && threads[t].Waiting?
      modifies this
      ensures Inv(Abs())
      ensures Step(old(Abs()), Do(t, if sent then WaitedSend else GiveUp)) == Some(Abs())
      ensures sent <==> pickSlot && HasRoom(old(Abs()), old(threads[t]).channel)
      ensures t in threads && threads[t] == if sent then Holding(old(threads[t]).channel) else Refused
    {
      ghost var s := Abs();
      var c := threads[t].channel;
      assert PcOk(s, threads[t]);
      sent := pickSlot && channels[c].buffered < channels[c].capacity;
      if sent {
        channels := channels[c := channels[c].(buffered := channels[c].buffered + 1)];
      }
      threads := threads[t := if sent then Holding(c) else Refused];
      InvStep(s, Do(t, if sent then WaitedSend else GiveUp));
    }

    /** The call up to the channel it is going to use. */
    method ChooseChannel(t: Thread, a: Account, limit: int, wait: int, rounds: seq<(seq<Event>, seq<Event>)>)
      returns (ch: int, ghost run: seq<Event>)
      requires Inv(Abs()) && t !in threads
      modifies this
      ensures Runs.Exec(Step, old(Abs()), run) == Some(Abs()) && Inv(Abs())
      ensures t in threads && threads[t] == Chosen(a, if limit <= 0 then 1 else limit, wait > 0, ch)
      ensures rounds == [] ==> (IsFull(Abs(), ch) <==> AllTaken(old(Abs()), a, if limit <= 0 then 1 else limit))
    {
      ghost var s := Abs();
      var l := if limit <= 0 then 1 else limit;
      threads := threads[t := Looping(a, l, wait > 0)];
      past := past.(asked := past.asked + {(a, l)});
      InvStep(s, Call(t, a, limit, wait));
      run := Runs.Extended(Step, s, [], s, Call(t, a, limit, wait), Abs());
      ghost var called := Abs();
      var retries;
      ch, retries, run := LimiterChannel(t, rounds, s, run);
      if rounds == [] { FullIffAllTaken(s, called, Abs(), a, l, ch); }
    }

    /** acquire: a slot of the account's channel, or a refusal; `others` is what gets in at each point. */
    method Acquire(t: Thread, a: Account, limit: int, wait: int, others: Interference, pickSlot: bool)
      returns (slot: Option<int>, ghost run: seq<Event>, ghost sendAt: nat, ghost atSend: State)
      requires Inv(Abs()) && t !in threads
      modifies this
      ensures Runs.Exec(Step, old(Abs()), run) == Some(Abs()) && Inv(Abs()) && t in threads
      ensures threads[t] == if slot.Some? then Holding(slot.value) else Refused
      ensures slot.Some? ==> 0 <= slot.value < |channels| && channels[slot.value].account == a
                             && channels[slot.value].capacity == if limit <= 0 then 1 else limit
      // the first send, in the state `atSend`, takes a slot of the chosen channel unless all are held
      ensures sendAt < |run| && run[sendAt] == Do(t, TrySend) && Runs.Exec(Step, old(Abs()), run[..sendAt]) == Some(atSend)
      ensures t in atSend.threads && atSend.threads[t].Chosen?
      ensures !IsFull(atSend, atSend.threads[t].channel) ==> slot == Some(atSend.threads[t].channel)
      ensures wait <= 0 && IsFull(atSend, atSend.threads[t].channel) ==> slot == None
      // and when nobody else gets in before it
      ensures others.rounds == [] && others.beforeSend == [] && !AllTaken(old(Abs()), a, if limit <= 0 then 1 else limit) ==> slot.Some?
      ensures others.rounds == [] && others.beforeSend == [] && AllTaken(old(Abs()), a, if limit <= 0 then 1 else limit) && wait <= 0 ==>
                slot == None
    {
      ghost var s := Abs();
      var l := if limit <= 0 then 1 else limit;
      var ch;
      ch, run := ChooseChannel(t, a, limit, wait, others.rounds);
      run := Yield(t, a, others.beforeSend, s, run);
      sendAt, atSend := |run|, Abs();
      ghost var before := run;
      slot, run := SendOrWait(t, a, l, ch, wait, others.queued, pickSlot, s, run);
      assert run[..sendAt] == before;
    }

    /** The two selects. */
    method SendOrWait(t: Thread, ghost a: Account, ghost limit: int, ch: int, wait: int, queued: seq<Event>, pickSlot: bool, ghost s0: State, ghost before: seq<Event>)
      returns (slot: Option<int>, ghost run: seq<Event>)
      requires Inv(Abs()) && Runs.Exec(Step, s0, before) == Some(Abs())
      requires t in threads && threads[t] == Chosen(a, limit, wait > 0, ch)
      modifies this
      ensures Runs.Exec(Step, s0, run) == Some(Abs()) && Inv(Abs()) && t in threads
      ensures threads[t] == if slot.Some? then Holding(slot.value) else Refused
      ensures before + [Do(t, TrySend)] <= run
      ensures !IsFull(old(Abs()), ch) ==> slot == Some(ch)
      ensures wait <= 0 && IsFull(old(Abs()), ch) ==> slot == None
      ensures slot.Some? ==> 0 <= slot.value < |channels| && channels[slot.value].account == a && channels[slot.value].capacity == limit
    {
      ghost var s := Abs();
      assert PcOk(s, threads[t]);
      var sent := TrySendTo(t);
      run := Runs.Extended(Step, s0, before, s, Do(t, TrySend), Abs());
      if sent { return Some(ch), run; }
      if wait <= 0 { return None, run; }
      run := Yield(t, a, queued, s0, run);
      s := Abs();
      assert PcOk(s, threads[t]);
      sent := WaitForSlot(t, pickSlot);
      run := Runs.Extended(Step, s0, run, s, Do(t, if sent then WaitedSend else GiveUp), Abs());
      slot := if sent then Some(ch) else None;
    }

    /** The release closure: takes one value back out of the channel the slot came from. */
    method ReleaseSlot(t: Thread)
      requires Inv(Abs()) && t in threads && threads[t].Holding?
      modifies this
      ensures Step(old(Abs()), Do(t, Release)) == Some(Abs()) && Inv(Abs())
      ensures var c := old(threads[t]).channel;
              0 <= c < |channels| == old(|channels|) && channels[c].buffered == old(channels)[c].buffered - 1
    {
      ghost var s := Abs();
      var c := threads[t].channel;
      assert PcOk(s, threads[t]) && ChannelOk(s, c);
      assert t in Holders(s.threads, c);
      channels := channels[c := channels[c].(buffered := channels[c].buffered - 1)];
      threads := threads[t := Released];
      InvStep(s, Do(t, Release));
    }

    /** resetSubscriptionLimiter */
    method ResetAccount(a: Account)
      requires Inv(Abs())
      modifies this
      ensures Step(old(Abs()), Reset(a)) == Some(Abs()) && Inv(Abs()) && a !in entries
      ensures channels == old(channels)
    {
      ghost var s := Abs();
      past := past.(resets := past.resets + {a});
      if a in entries {
        past := past.(writes := past.writes[a := Writes(Abs(), a) + 1]);
        entries := entries - {a};
      }
      InvStep(s, Reset(a));
    }
  }
}

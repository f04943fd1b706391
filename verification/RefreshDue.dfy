/**
 When a refresh request leaves, over every run: only for a forced call, or for a token that was due at both looks.
 The limits are one minute for Grok and ten minutes for the other providers.
 */
module RefreshDue {
  import opened Prelude
  import opened Credentials
  import opened Refresh
  import Runs

  /** At `now` no more than the provider's margin is left of a token with an expiry. */
  predicate Due(expiresAt: Option<int>, p: Provider, now: int) {
    expiresAt.Some? && expiresAt.value - now <= if p == Grok then 60_000_000_000 else 600_000_000_000
  }

  /** `t` came with a forced call, or with a token that was due. */
  ghost predicate CameDue(run: seq<Event>, t: Thread, call: Call) {
    exists snapshot, now :: Start(t, call.account, snapshot, call.force, now) in run
                            && (call.force || Due(snapshot.expiresAt, call.kind.provider, now))
  }

  /** And found that token unchanged, or due, in the row it read under the mutex. */
  ghost predicate SawDue(run: seq<Event>, t: Thread, call: Call, row: Row) {
    exists now :: ReadRow(t, now) in run && if call.force then row.credentials.accessToken == call.original
                                            else Due(row.expiresAt, call.kind.provider, now)
  }

  ghost predicate Looked(run: seq<Event>, t: Thread, pc: Pc) {
    && (!pc.Returned? && !pc.Unlocking? ==> pc.call.kind.oauth && CameDue(run, t, pc.call))
    && (pc.UsesRow() ==> SawDue(run, t, pc.call, pc.row))
  }

  ghost predicate AllLooked(run: seq<Event>, s: State) {
    forall t :: t in s.threads ==> Looked(run, t, s.threads[t])
  }

  lemma LookedStays(run: seq<Event>, e: Event, t: Thread, pc: Pc)
    requires Looked(run, t, pc)
    ensures Looked(run + [e], t, pc)
  {
    if !pc.Returned? && !pc.Unlocking? {
      var snapshot, now :| Start(t, pc.call.account, snapshot, pc.call.force, now) in run
                           && (pc.call.force || Due(snapshot.expiresAt, pc.call.kind.provider, now));
      assert Start(t, pc.call.account, snapshot, pc.call.force, now) in run + [e];
    }
    if pc.UsesRow() {
      var now :| ReadRow(t, now) in run && if pc.call.force then pc.row.credentials.accessToken == pc.call.original
                                           else Due(pc.row.expiresAt, pc.call.kind.provider, now);
      assert ReadRow(t, now) in run + [e];
    }
  }

  lemma LookedStep(run: seq<Event>, s: State, e: Event, t: Thread)
    requires Step(s, e).Some? && t in Step(s, e).value.threads
    requires t in s.threads ==> Looked(run, t, s.threads[t])
    ensures Looked(run + [e], t, Step(s, e).value.threads[t])
  {
    if t in s.threads {
      LookedStays(run, e, t, s.threads[t]);
    }
    assert e in run + [e];
  }

  lemma {:induction false} RunLooks(run: seq<Event>, s: State, more: seq<Event>)
    requires AllLooked(run, s) && Runs.Exec(Step, s, more).Some?
    ensures AllLooked(run + more, Runs.Exec(Step, s, more).value)
    decreases |more|
  {
    if more == [] {
      assert run + more == run;
    } else {
      var next := Step(s, more[0]).value;
      forall t | t in next.threads ensures Looked(run + [more[0]], t, next.threads[t]) {
        LookedStep(run, s, more[0], t);
      }
      RunLooks(run + [more[0]], next, more[1..]);
      assert run + [more[0]] + more[1..] == run + more;
    }
  }

  /**
   A thread about to send, waiting for the answer or about to store it made a forced call, or its caller's token
   was due when it came and the row's token was due when it looked again.
   */
  lemma OnlyDueTokensAreRefreshed(clientIds: Provider -> string, run: seq<Event>, s: State, t: Thread)
    requires Reaches(clientIds, run, s) && t in s.threads && s.threads[t].UsesRow()
    ensures var call := s.threads[t].call;
            call.kind.oauth && CameDue(run, t, call) && SawDue(run, t, call, s.threads[t].row)
  {
    RunLooks([], Init(clientIds), run);
    assert [] + run == run;
  }

  ghost predicate MapsAllocated(s: State) {
    && (forall m :: m in s.held ==> m < s.mutexes)
    && (forall x :: x in s.locks ==> s.locks[x] < s.mutexes)
  }

  ghost predicate ThreadAllocated(s: State, t: Thread) {
    t in s.threads && s.threads[t].HasMutex() ==> s.threads[t].mutex < s.mutexes
  }

  /** Mutexes in use have been allocated. */
  ghost predicate Allocated(s: State) {
    MapsAllocated(s) && forall t :: t in s.threads ==> ThreadAllocated(s, t)
  }

  lemma ThreadAllocatedStep(s: State, e: Event, t: Thread)
    requires ThreadAllocated(s, t) && MapsAllocated(s) && Step(s, e).Some?
    ensures ThreadAllocated(Step(s, e).value, t)
  {
  }

  lemma MapsAllocatedStep(s: State, e: Event)
    requires e.Lock? ==> ThreadAllocated(s, e.t)
    requires MapsAllocated(s) && Step(s, e).Some?
    ensures MapsAllocated(Step(s, e).value)
  {
  }

  lemma AllocatedStep(s: State, e: Event)
    requires Allocated(s) && Step(s, e).Some?
    ensures Allocated(Step(s, e).value)
  {
    MapsAllocatedStep(s, e);
    var next := Step(s, e).value;
    forall t | t in next.threads ensures ThreadAllocated(next, t) { ThreadAllocatedStep(s, e, t); }
  }

  /** A mutex made for an account that has none is free. */
  lemma NewMutexIsFree(clientIds: Provider -> string, run: seq<Event>, s: State)
    requires Reaches(clientIds, run, s)
    ensures s.mutexes !in s.held
  {
    forall p, e | Allocated(p) && Step(p, e).Some? ensures Allocated(Step(p, e).value) { AllocatedStep(p, e); }
    Runs.Invariant(Step, p => Allocated(p), Init(clientIds), run);
  }

  /** A held mutex is held by a thread that is still inside. */
  ghost predicate HeldInside(s: State, m: MutexId) {
    m in s.held ==> s.held[m] in s.threads && s.threads[s.held[m]].HoldsLock() && s.threads[s.held[m]].mutex == m
  }

  lemma AnsweredInside(s: State, e: Event, m: MutexId)
    requires e.Accept? && AcceptStep(s, e.t, e.token).Some? && HeldInside(s, m)
    ensures HeldInside(AcceptStep(s, e.t, e.token).value, m)
  {
  }

  lemma StoredInside(s: State, e: Event, m: MutexId)
    requires e.Store? && StoreStep(s, e.t, e.dbOk).Some? && HeldInside(s, m)
    ensures HeldInside(StoreStep(s, e.t, e.dbOk).value, m)
  {
  }

  lemma OtherInside(s: State, e: Event, m: MutexId)
    requires !e.Accept? && !e.Store? && Step(s, e).Some? && HeldInside(s, m)
    ensures HeldInside(Step(s, e).value, m)
  {
  }

  lemma HeldInsideStep(s: State, e: Event, m: MutexId)
    requires HeldInside(s, m) && Step(s, e).Some?
    ensures HeldInside(Step(s, e).value, m)
  {
    if e.Accept? { AnsweredInside(s, e, m); }
    else if e.Store? { StoredInside(s, e, m); }
    else { OtherInside(s, e, m); }
  }

  ghost predicate AllHeldInside(s: State) { forall m :: m in s.held ==> HeldInside(s, m) }

  /** A call that is over holds no mutex, however it ended. */
  lemma ReturnedHoldsNothing(clientIds: Provider -> string, run: seq<Event>, s: State, t: Thread, m: MutexId)
    requires Reaches(clientIds, run, s) && t in s.threads && s.threads[t].Returned? && m in s.held
    ensures s.held[m] != t
  {
    forall p, e | AllHeldInside(p) && Step(p, e).Some? ensures AllHeldInside(Step(p, e).value) {
      forall n | n in Step(p, e).value.held ensures HeldInside(Step(p, e).value, n) {
        assert HeldInside(p, n);
        HeldInsideStep(p, e, n);
      }
    }
    Runs.Invariant(Step, p => AllHeldInside(p), Init(clientIds), run);
    assert HeldInside(s, m);
  }
}

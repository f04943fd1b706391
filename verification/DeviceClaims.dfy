/** No device login is left marked: while Polling or Finalizing is set, the thread that set it is still at work on the login. */
module DeviceClaims {
  import opened Prelude
  import opened FlowTable
  import opened DeviceFlow
  import Runs

  ghost predicate PollHeld(s: State, id: FlowId) {
    id in s.table.flows && s.table.flows[id].data.polling ==>
      id in s.pollers && s.pollers[id] in s.threads && s.threads[s.pollers[id]] == Requesting(id)
  }

  ghost predicate ClaimHeld(s: State, id: FlowId) {
    id in s.table.flows && s.table.flows[id].data.finalizing ==>
      && id in s.claims && s.claims[id] in s.threads
      && s.threads[s.claims[id]].Claiming() && s.threads[s.claims[id]].id == id
  }

  ghost predicate Held(s: State, id: FlowId) { PollHeld(s, id) && ClaimHeld(s, id) }

  lemma StartHeld(s: State, e: Event, v: State, id: FlowId)
    requires e.StartLocked? && StartStep(s, e) == Some(v) && Held(s, id)
    ensures Held(v, id)
  {
  }

  lemma CleanupHeld(s: State, now: int, id: FlowId)
    requires Held(s, id)
    ensures Held(s.(table := Cleanup(s.table, now)), id)
  {
  }

  lemma AskHeld(s: State, t: Thread, i: FlowId, now: int, id: FlowId)
    requires t !in s.threads && i in s.table.flows && Held(s, id)
    ensures Held(Ask(s, t, i, now), id)
  {
  }

  lemma ArrivalHeld(s: State, t: Thread, pc: Pc, id: FlowId)
    requires t !in s.threads && Held(s, id)
    ensures Held(At(s, t, pc), id)
  {
  }

  lemma PollCleanHeld(s: State, t: Thread, i: FlowId, owner: string, now: int, v: State, id: FlowId)
    requires t !in s.threads && v == PollClean(s, t, i, owner, now) && Held(s, id)
    ensures Held(v, id)
  {
    if i in s.table.flows && v == Ask(s, t, i, now) { AskHeld(s, t, i, now, id); }
    else { ArrivalHeld(s, t, v.threads[t], id); }
  }

  lemma PollEventHeld(s: State, e: Event, v: State, id: FlowId)
    requires e.PollLocked? && PollStep(s, e.t, e.id, e.owner, e.now) == Some(v) && Held(s, id)
    ensures Held(v, id)
  {
    CleanupHeld(s, e.now, id);
    PollCleanHeld(s.(table := Cleanup(s.table, e.now)), e.t, e.id, e.owner, e.now, v, id);
  }

  lemma AnswerHeld(s: State, e: Event, v: State, id: FlowId)
    requires e.Answered? && AnswerStep(s, e.t, e.answer) == Some(v) && Held(s, id) && ThreadOk(s, e.t)
    ensures Held(v, id)
  {
  }

  lemma SlowDownHeld(s: State, e: Event, v: State, id: FlowId)
    requires e.SlowDownLocked? && SlowDownStep(s, e.t) == Some(v) && Held(s, id)
    ensures Held(v, id)
  {
  }

  lemma FinishHeld(s: State, e: Event, v: State, id: FlowId)
    requires e.FinishLocked? && FinishStep(s, e.t) == Some(v) && Held(s, id)
    ensures Held(v, id)
  {
  }

  lemma UndoHeld(s: State, e: Event, v: State, id: FlowId)
    requires e.UndoLocked? && UndoStep(s, e.t) == Some(v) && Held(s, id)
    ensures Held(v, id)
  {
  }

  lemma OtherHeld(s: State, e: Event, v: State, id: FlowId)
    requires !e.StartLocked? && !e.PollLocked? && !e.Answered? && !e.SlowDownLocked? && !e.FinishLocked? && !e.UndoLocked?
    requires Step(s, e) == Some(v) && Held(s, id)
    ensures Held(v, id)
  {
  }

  ghost predicate AllHeld(s: State) { Inv(s) && forall id :: id in s.table.flows ==> Held(s, id) }

  lemma AllHeldStep(s: State, e: Event, v: State)
    requires AllHeld(s) && Step(s, e) == Some(v)
    ensures AllHeld(v)
  {
    InvStep(s, e);
    forall id | id in v.table.flows ensures Held(v, id) {
      assert Held(s, id);
      if e.StartLocked? { StartHeld(s, e, v, id); }
      else if e.PollLocked? { PollEventHeld(s, e, v, id); }
      else if e.Answered? { AnswerHeld(s, e, v, id); }
      else if e.SlowDownLocked? { SlowDownHeld(s, e, v, id); }
      else if e.FinishLocked? { FinishHeld(s, e, v, id); }
      else if e.UndoLocked? { UndoHeld(s, e, v, id); }
      else { OtherHeld(s, e, v, id); }
    }
  }

  /** A login marked as polled has its request out, and one marked as finalized its account under way. */
  lemma MarkedIsWorkedOn(clock: int, run: seq<Event>, s: State, id: FlowId)
    requires Reaches(clock, run, s) && id in s.table.flows
    ensures s.table.flows[id].data.polling ==> id in s.pollers && s.pollers[id] in s.threads && s.threads[s.pollers[id]] == Requesting(id)
    ensures s.table.flows[id].data.finalizing ==>
              && id in s.claims && s.claims[id] in s.threads
              && s.threads[s.claims[id]].Claiming() && s.threads[s.claims[id]].id == id
  {
    forall p, e | AllHeld(p) && Step(p, e).Some? ensures AllHeld(Step(p, e).value) {
      AllHeldStep(p, e, Step(p, e).value);
    }
    Runs.Invariant(Step, p => AllHeld(p), Init(clock), run);
    assert Held(s, id);
  }
}

/**
 Who may exchange a PKCE login's code, over every run: whoever sets Finalizing came as the login's owner, for its
 provider, before it expired, and with the state it was started with or none. Only such a login gets an account.
 */
module PkceClaims {
  import opened Prelude
  import opened FlowTable
  import opened PkceFlow
  import Runs

  /** `e` starts login `id` with what `f` holds. */
  predicate Starts(e: Event, id: FlowId, f: Flow<PkceData>) {
    e.StartLocked? && e.id == id && e.owner == f.owner && e.expiresAt == f.expiresAt && e.provider == f.data.provider && e.state == f.data.state
  }

  /** The login was started as it is in the map. */
  ghost predicate StartedAs(run: seq<Event>, id: FlowId, f: Flow<PkceData>) {
    exists e :: e in run && Starts(e, id, f)
  }

  /** `x` may claim the login started by `e`. */
  predicate Fits(e: Event, x: Event, id: FlowId, t: Thread) {
    && e.StartLocked? && x.ExchangeLocked? && e.id == x.id == id && x.t == t
    && x.owner == e.owner && x.provider == e.provider && x.now < e.expiresAt && (x.returned == "" || x.returned == e.state)
  }

  ghost predicate Earned(run: seq<Event>, id: FlowId, t: Thread) {
    exists e, x :: e in run && x in run && Fits(e, x, id, t)
  }

  ghost predicate FlowsStarted(run: seq<Event>, s: State) {
    forall id :: id in s.table.flows ==> StartedAs(run, id, s.table.flows[id])
  }

  ghost predicate ClaimsEarned(run: seq<Event>, s: State) {
    forall id :: id in s.claims ==> Earned(run, id, s.claims[id])
  }

  ghost predicate CreatedClaimed(s: State) {
    forall i :: 0 <= i < |s.created| ==> s.created[i] in s.claims
  }

  ghost predicate Recorded(run: seq<Event>, s: State) {
    Inv(s) && FlowsStarted(run, s) && ClaimsEarned(run, s) && CreatedClaimed(s)
  }

  lemma StartedStays(run: seq<Event>, e: Event, id: FlowId, f: Flow<PkceData>, g: Flow<PkceData>)
    requires StartedAs(run, id, f) && SameLogin(g, f)
    ensures StartedAs(run + [e], id, g)
  {
    var d :| d in run && Starts(d, id, f);
    assert d in run + [e] && Starts(d, id, g);
  }

  lemma EarnedStays(run: seq<Event>, e: Event, id: FlowId, t: Thread)
    requires Earned(run, id, t)
    ensures Earned(run + [e], id, t)
  {
    var d, x :| d in run && x in run && Fits(d, x, id, t);
    assert d in run + [e] && x in run + [e];
  }

  /** Owner, expiry, provider and state, which a login keeps. */
  predicate SameLogin(f: Flow<PkceData>, g: Flow<PkceData>) {
    f.owner == g.owner && f.expiresAt == g.expiresAt && f.data.provider == g.data.provider && f.data.state == g.data.state
  }

  lemma StartFlow(s: State, e: Event, v: State, id: FlowId)
    requires e.StartLocked? && StartStep(s, e) == Some(v) && id in v.table.flows
    ensures Starts(e, id, v.table.flows[id]) || (id in s.table.flows && v.table.flows[id] == s.table.flows[id])
  {
  }

  lemma ExchangeFlow(s: State, e: Event, v: State, id: FlowId)
    requires e.ExchangeLocked? && Step(s, e) == Some(v) && id in v.table.flows
    ensures id in s.table.flows && SameLogin(v.table.flows[id], s.table.flows[id])
  {
  }

  lemma OtherFlow(s: State, e: Event, v: State, id: FlowId)
    requires !e.StartLocked? && !e.ExchangeLocked? && Step(s, e) == Some(v) && id in v.table.flows
    ensures id in s.table.flows && SameLogin(v.table.flows[id], s.table.flows[id])
  {
  }

  /** A login is new, or the one that was there. */
  lemma FlowStep(s: State, e: Event, v: State, id: FlowId)
    requires Step(s, e) == Some(v) && id in v.table.flows
    ensures Starts(e, id, v.table.flows[id]) || (id in s.table.flows && SameLogin(v.table.flows[id], s.table.flows[id]))
  {
    if e.StartLocked? { StartFlow(s, e, v, id); }
    else if e.ExchangeLocked? { ExchangeFlow(s, e, v, id); }
    else { OtherFlow(s, e, v, id); }
  }

  lemma FlowsStartedStep(run: seq<Event>, s: State, e: Event, v: State)
    requires Step(s, e) == Some(v) && FlowsStarted(run, s)
    ensures FlowsStarted(run + [e], v)
  {
    forall id | id in v.table.flows ensures StartedAs(run + [e], id, v.table.flows[id]) {
      FlowStep(s, e, v, id);
      if Starts(e, id, v.table.flows[id]) {
        assert e in run + [e];
      } else {
        StartedStays(run, e, id, s.table.flows[id], v.table.flows[id]);
      }
    }
  }

  /** The only event that sets a claim, and what it needs. */
  lemma ClaimStep(s: State, e: Event, v: State, id: FlowId)
    requires Step(s, e) == Some(v) && id in v.claims && !(id in s.claims && s.claims[id] == v.claims[id])
    ensures e.ExchangeLocked? && e.id == id && v.claims[id] == e.t && id in s.table.flows
    ensures var f := s.table.flows[id];
            && f.owner == e.owner && f.data.provider == e.provider && e.now < f.expiresAt
            && (e.returned == "" || e.returned == f.data.state) && !f.data.finalizing
  {
  }

  lemma ClaimsEarnedStep(run: seq<Event>, s: State, e: Event, v: State)
    requires Step(s, e) == Some(v) && FlowsStarted(run, s) && ClaimsEarned(run, s)
    ensures ClaimsEarned(run + [e], v)
  {
    forall id | id in v.claims ensures Earned(run + [e], id, v.claims[id]) {
      if id in s.claims && s.claims[id] == v.claims[id] {
        EarnedStays(run, e, id, v.claims[id]);
      } else {
        ClaimStep(s, e, v, id);
        var d :| d in run && Starts(d, id, s.table.flows[id]);
        assert d in run + [e] && e in run + [e] && Fits(d, e, id, v.claims[id]);
      }
    }
  }

  lemma ClaimsStay(s: State, e: Event, v: State)
    requires Step(s, e) == Some(v)
    ensures s.claims.Keys <= v.claims.Keys
  {
  }

  lemma CreatedStep(s: State, e: Event, v: State)
    requires Step(s, e) == Some(v)
    ensures v.created == s.created ||
            (e.CreateSubscription? && e.t in s.threads && s.threads[e.t].Creating? && v.created == s.created + [s.threads[e.t].id])
  {
  }

  lemma CreatedClaimedStep(s: State, e: Event, v: State)
    requires Step(s, e) == Some(v) && CreatedClaimed(s) && Inv(s)
    ensures CreatedClaimed(v)
  {
    ClaimsStay(s, e, v);
    CreatedStep(s, e, v);
    if v.created != s.created { assert ThreadOk(s, e.t); }
  }

  lemma {:induction false} RunRecords(run: seq<Event>, s: State, more: seq<Event>)
    requires Recorded(run, s) && Runs.Exec(Step, s, more).Some?
    ensures Recorded(run + more, Runs.Exec(Step, s, more).value)
    decreases |more|
  {
    if more == [] {
      assert run + more == run;
    } else {
      var e := more[0];
      var v := Step(s, e).value;
      InvStep(s, e);
      FlowsStartedStep(run, s, e, v);
      ClaimsEarnedStep(run, s, e, v);
      CreatedClaimedStep(s, e, v);
      RunRecords(run + [e], v, more[1..]);
      assert run + [e] + more[1..] == run + more;
    }
  }

  /** Whoever exchanges a login's code or creates its account claimed it by right. */
  lemma ClaimsAreEarned(run: seq<Event>, s: State, t: Thread)
    requires Reaches(run, s) && t in s.threads && s.threads[t].Claiming()
    ensures Earned(run, s.threads[t].id, t)
  {
    RunRecords([], INIT, run);
    assert [] + run == run;
    assert ThreadOk(s, t);
  }

  /** Every account came from a login that somebody claimed by right. */
  lemma AccountsAreEarned(run: seq<Event>, s: State, id: FlowId)
    requires Reaches(run, s) && id in s.created
    ensures exists t :: Earned(run, id, t)
  {
    RunRecords([], INIT, run);
    assert [] + run == run;
    assert Earned(run, id, s.claims[id]);
  }

  /**
   What an exchange does in any state: it claims the login exactly when that is pending, unexpired, of this owner
   and provider, not claimed already, and the state is the login's own or none; else it ends and claims nothing.
   */
  lemma ExchangeClaimsIff(s: State, e: Event, v: State)
    requires e.ExchangeLocked? && Step(s, e) == Some(v)
    ensures v.created == s.created
    ensures if && e.id in s.table.flows && e.now < s.table.flows[e.id].expiresAt
               && s.table.flows[e.id].owner == e.owner && s.table.flows[e.id].data.provider == e.provider
               && (e.returned == "" || e.returned == s.table.flows[e.id].data.state) && !s.table.flows[e.id].data.finalizing
            then v.claims == s.claims[e.id := e.t] && v.threads == s.threads[e.t := Exchanging(e.id, e.provider)]
            else v.claims == s.claims && v.threads == s.threads[e.t := Done]
    ensures forall i :: i in v.table.flows && (i in s.table.flows ==> v.table.flows[i] != s.table.flows[i]) ==> i == e.id && v.threads[e.t].Exchanging?
  {
  }

  // ---- No login is left claimed ----

  /** The thread that set Finalizing last is still at work on the login. */
  ghost predicate ClaimHeld(s: State, id: FlowId) {
    id in s.table.flows && s.table.flows[id].data.finalizing ==>
      && id in s.claims && s.claims[id] in s.threads
      && var pc := s.threads[s.claims[id]]; (pc.Claiming() || pc.Removing?) && pc.id == id
  }

  lemma ClaimHeldStart(s: State, e: Event, v: State, id: FlowId)
    requires e.StartLocked? && StartStep(s, e) == Some(v) && ClaimHeld(s, id)
    ensures ClaimHeld(v, id)
  {
  }

  lemma ClaimHeldExchange(s: State, e: Event, v: State, id: FlowId)
    requires e.ExchangeLocked? && Step(s, e) == Some(v) && ClaimHeld(s, id)
    ensures ClaimHeld(v, id)
  {
  }

  lemma ClaimHeldOther(s: State, e: Event, v: State, id: FlowId)
    requires !e.StartLocked? && !e.ExchangeLocked? && Step(s, e) == Some(v) && ClaimHeld(s, id)
    requires e.BuildClient? || e.ShutdownLocked? || (e.t in s.threads && ThreadOk(s, e.t))
    ensures ClaimHeld(v, id)
  {
  }

  ghost predicate AllClaimsHeld(s: State) { Inv(s) && forall id :: id in s.table.flows ==> ClaimHeld(s, id) }

  lemma ClaimsHeldStep(s: State, e: Event, v: State)
    requires AllClaimsHeld(s) && Step(s, e) == Some(v)
    ensures AllClaimsHeld(v)
  {
    InvStep(s, e);
    forall id | id in v.table.flows ensures ClaimHeld(v, id) {
      assert ClaimHeld(s, id);
      if e.StartLocked? { ClaimHeldStart(s, e, v, id); }
      else if e.ExchangeLocked? { ClaimHeldExchange(s, e, v, id); }
      else { ClaimHeldOther(s, e, v, id); }
    }
  }

  /** While a login is claimed, the thread that claimed it last is on its way to giving it up or removing it. */
  lemma ClaimedIsWorkedOn(run: seq<Event>, s: State, id: FlowId)
    requires Reaches(run, s) && id in s.table.flows && s.table.flows[id].data.finalizing
    ensures id in s.claims && s.claims[id] in s.threads
    ensures var pc := s.threads[s.claims[id]]; (pc.Claiming() || pc.Removing?) && pc.id == id
  {
    forall p, e | AllClaimsHeld(p) && Step(p, e).Some? ensures AllClaimsHeld(Step(p, e).value) {
      ClaimsHeldStep(p, e, Step(p, e).value);
    }
    Runs.Invariant(Step, p => AllClaimsHeld(p), INIT, run);
    assert ClaimHeld(s, id);
  }
}

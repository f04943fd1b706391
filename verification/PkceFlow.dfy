/**
 The PKCE login of Claude and Codex as a state machine over the sections its handlers run under the
 mutex and the network and database calls between them.
 */
module PkceFlow {
  import opened Prelude
  import opened FlowTable
  import Credentials
  import Runs

  type Provider = Credentials.Provider

  datatype PkceData = PkceData(provider: Provider, state: string, finalizing: bool)

  /** What came of exchanging the authorization code. */
  datatype Answer = InvalidGrant | OtherFailure | NoAccessToken | NoAccountId | Good

  datatype Pc =
    | Starting
    | Exchanging(id: FlowId, provider: Provider)   // claimed; waiting for the token endpoint
    | Clearing(id: FlowId, thenRemove: bool)       // failed; Finalizing not yet cleared
    | Creating(id: FlowId)
    | Created(id: FlowId)                          // account created; flow not yet removed
    | Removing(id: FlowId)
    | Closing                                      // holds the client of a flow it took out
    | Done
  {
    /** Between setting Finalizing and giving it up or removing the flow. */
    predicate Claiming() { Exchanging? || Clearing? || Creating? || Created? }
    predicate OnFlow() { !Starting? && !Closing? && !Done? }
  }

  datatype State = State(
    table: Table<PkceData>,
    threads: map<Thread, Pc>,
    // history
    created: seq<FlowId>,                // successful CreateSubscription calls
    claims: map<FlowId, Thread>)         // who last set Finalizing

  datatype Event =
    | BuildClient(t: Thread, c: Client)
    | StartFailed(t: Thread)
    | StartLocked(t: Thread, id: FlowId, owner: string, expiresAt: int, provider: Provider, state: string, now: int)
    | ExchangeLocked(t: Thread, id: FlowId, owner: string, provider: Provider, returned: string, now: int)
    | Answered(t: Thread, answer: Answer)
    | ClearLocked(t: Thread)
    | CreateSubscription(t: Thread, ok: bool)
    | RemoveLocked(t: Thread)
    | CloseClient(t: Thread)
    | ShutdownLocked

  function At(s: State, t: Thread, pc: Pc): State { s.(threads := s.threads[t := pc]) }

  function StartStep(s: State, e: Event): Option<State>
    requires e.StartLocked?
  {
    if e.t !in s.threads || !s.threads[e.t].Starting? || e.t !in s.table.held || e.id in s.table.used then None
    else Some(StartClean(s.(table := Cleanup(s.table, e.now)), e.t, e.id, e.owner, e.expiresAt, PkceData(e.provider, e.state, false)))
  }

  /** At capacity the client stays with the thread, which closes it. */
  function StartClean(s: State, t: Thread, id: FlowId, owner: string, expiresAt: int, d: PkceData): State
    requires t in s.table.held
  {
    if |s.table.flows| >= MAX_PENDING then At(s, t, Closing) else FileFlow(s, t, id, owner, expiresAt, d)
  }

  function FileFlow(s: State, t: Thread, id: FlowId, owner: string, expiresAt: int, d: PkceData): State
    requires t in s.table.held
  {
    At(s.(table := File(s.table, t, id, owner, expiresAt, d)), t, Done)
  }

  /** The locked section of an exchange: it goes on only if it sets Finalizing itself. */
  function ExchangeClean(s: State, t: Thread, id: FlowId, owner: string, provider: Provider, returned: string): State {
    if id !in s.table.flows || s.table.flows[id].owner != owner || s.table.flows[id].data.provider != provider then At(s, t, Done)
    else if |returned| > 0 && returned != s.table.flows[id].data.state then At(s, t, Done)
    else if s.table.flows[id].data.finalizing then At(s, t, Done)
    else Claim(s, t, id)
  }

  function Claim(s: State, t: Thread, id: FlowId): State
    requires id in s.table.flows
  {
    var d := s.table.flows[id].data;
    At(s.(table := SetData(s.table, id, d.(finalizing := true)), claims := s.claims[id := t]), t, Exchanging(id, d.provider))
  }

  function ExchangeStep(s: State, t: Thread, id: FlowId, owner: string, provider: Provider, returned: string, now: int): Option<State> {
    if t in s.threads || t in s.table.held then None
    else Some(ExchangeClean(s.(table := Cleanup(s.table, now)), t, id, owner, provider, returned))
  }

  function AfterAnswer(answer: Answer, id: FlowId): Pc {
    match answer
    case InvalidGrant => Clearing(id, true)
    case OtherFailure => Clearing(id, false)
    case NoAccessToken => Clearing(id, false)
    case NoAccountId => Removing(id)
    case Good => Creating(id)
  }

  function AnswerStep(s: State, t: Thread, answer: Answer): Option<State> {
    if t !in s.threads || !s.threads[t].Exchanging? || (answer.NoAccountId? && s.threads[t].provider != Credentials.Codex) then None
    else Some(At(s, t, AfterAnswer(answer, s.threads[t].id)))
  }

  /** setPKCEFinalizing(id, false) */
  function ClearStep(s: State, t: Thread): Option<State> {
    if t !in s.threads || !s.threads[t].Clearing? then None
    else
      var id := s.threads[t].id;
      var pc := if s.threads[t].thenRemove then Removing(id) else Done;
      if id !in s.table.flows then Some(At(s, t, pc))
      else Some(At(s.(table := SetData(s.table, id, s.table.flows[id].data.(finalizing := false))), t, pc))
  }

  function CreateStep(s: State, t: Thread, ok: bool): Option<State> {
    if t !in s.threads || !s.threads[t].Creating? then None
    else
      var id := s.threads[t].id;
      if ok then Some(At(s, t, Created(id)).(created := s.created + [id]))
      else Some(At(s, t, Clearing(id, false)))
  }

  function RemoveStep(s: State, t: Thread): Option<State> {
    if t !in s.threads || !(s.threads[t].Removing? || s.threads[t].Created?) || t in s.table.held then None
    else
      var id := s.threads[t].id;
      Some(At(s.(table := Remove(s.table, t, id)), t, if id in s.table.flows then Closing else Done))
  }

  function CloseStep(s: State, t: Thread): Option<State> {
    if t !in s.threads || t !in s.table.held || s.table.held[t] !in s.table.closes then None
    else Some(At(s.(table := CloseHeld(s.table, t)), t, Done))
  }

  function Step(s: State, e: Event): Option<State> {
    match e
    case BuildClient(t, c) =>
      if t in s.threads || t in s.table.held || c in s.table.closes then None
      else Some(At(s.(table := Build(s.table, t, c)), t, Starting))
    case StartFailed(t) => if t in s.threads && s.threads[t].Starting? then CloseStep(s, t) else None
    case StartLocked(_, _, _, _, _, _, _) => StartStep(s, e)
    case ExchangeLocked(t, id, owner, provider, returned, now) => ExchangeStep(s, t, id, owner, provider, returned, now)
    case Answered(t, answer) => AnswerStep(s, t, answer)
    case ClearLocked(t) => ClearStep(s, t)
    case CreateSubscription(t, ok) => CreateStep(s, t, ok)
    case RemoveLocked(t) => RemoveStep(s, t)
    case CloseClient(t) => if t in s.threads && s.threads[t].Closing? then CloseStep(s, t) else None
    case ShutdownLocked => Some(s.(table := Shutdown(s.table)))
  }

  const INIT := State(Table(map[], map[], map[], {}, map[]), map[], [], map[])

  // ---- The invariant ----

  ghost predicate NotCreated(created: seq<FlowId>, id: FlowId) {
    forall i :: 0 <= i < |created| ==> created[i] != id
  }

  ghost predicate FlowOk(s: State, id: FlowId)
    requires id in s.table.flows
  {
    !s.table.flows[id].data.finalizing ==> NotCreated(s.created, id)
  }

  ghost predicate ThreadOk(s: State, t: Thread)
    requires t in s.threads
  {
    var pc := s.threads[t];
    && (t in s.table.held ==> pc.Starting? || pc.Closing?)
    && (pc.OnFlow() ==> pc.id in s.table.used)
    && (pc.Claiming() ==>
          && pc.id in s.claims && s.claims[pc.id] == t
          && (pc.id in s.table.flows ==> s.table.flows[pc.id].data.finalizing))
    && (pc.Claiming() && !pc.Created? ==> NotCreated(s.created, pc.id))
  }

  ghost predicate CreatedOk(created: seq<FlowId>, used: set<FlowId>) {
    && (forall i :: 0 <= i < |created| ==> created[i] in used)
    && (forall i, j :: 0 <= i < j < |created| ==> created[i] != created[j])
  }

  ghost predicate Inv(s: State) {
    && TableInv(s.table)
    && s.table.held.Keys <= s.threads.Keys
    && CreatedOk(s.created, s.table.used)
    && (forall id :: id in s.table.flows ==> FlowOk(s, id))
    && (forall t :: t in s.threads ==> ThreadOk(s, t))
  }

  lemma DropKeeps(s: State, ids: set<FlowId>)
    requires Inv(s)
    ensures Inv(s.(table := Drop(s.table, ids)))
  {
    DropKeepsInv(s.table, ids);
  }

  // ---- Starting a login ----

  lemma FileThread(s: State, t: Thread, id: FlowId, owner: string, expiresAt: int, d: PkceData, u: Thread)
    requires t in s.table.held && t in s.threads && id !in s.table.used
    requires u in s.threads && ThreadOk(s, u)
    ensures ThreadOk(FileFlow(s, t, id, owner, expiresAt, d), u)
  {
  }

  lemma FileKeeps(s: State, t: Thread, id: FlowId, owner: string, expiresAt: int, d: PkceData)
    requires Inv(s) && t in s.table.held && t in s.threads && id !in s.table.used && |s.table.flows| < MAX_PENDING
    ensures Inv(FileFlow(s, t, id, owner, expiresAt, d))
  {
    var v := FileFlow(s, t, id, owner, expiresAt, d);
    FileKeepsInv(s.table, t, id, owner, expiresAt, d);
    assert NotCreated(s.created, id);
    forall i | i in v.table.flows ensures FlowOk(v, i) { if i != id { assert FlowOk(s, i); } }
    forall u | u in v.threads ensures ThreadOk(v, u) { FileThread(s, t, id, owner, expiresAt, d, u); }
  }

  /** A thread that goes on to a point where it claims nothing and is on no flow, or on one known of. */
  lemma MoveKeeps(s: State, t: Thread, pc: Pc)
    requires Inv(s) && !pc.Claiming() && (pc.OnFlow() ==> pc.id in s.table.used)
    requires t in s.table.held ==> pc.Closing?
    ensures Inv(At(s, t, pc))
  {
    var v := At(s, t, pc);
    forall i | i in v.table.flows ensures FlowOk(v, i) { assert FlowOk(s, i); }
    forall u | u in v.threads ensures ThreadOk(v, u) { if u != t { assert ThreadOk(s, u); } }
  }

  lemma StartKeeps(s: State, t: Thread, id: FlowId, owner: string, expiresAt: int, d: PkceData, v: State)
    requires Inv(s) && t in s.table.held && t in s.threads && id !in s.table.used
    requires v == StartClean(s, t, id, owner, expiresAt, d)
    ensures Inv(v)
  {
    if |s.table.flows| >= MAX_PENDING { MoveKeeps(s, t, Closing); }
    else { FileKeeps(s, t, id, owner, expiresAt, d); }
  }

  lemma StartEventKeeps(s: State, e: Event, v: State)
    requires e.StartLocked? && StartStep(s, e) == Some(v) && Inv(s)
    ensures Inv(v)
  {
    DropKeeps(s, ExpiredIds(s.table.flows, e.now));
    StartKeeps(s.(table := Cleanup(s.table, e.now)), e.t, e.id, e.owner, e.expiresAt, PkceData(e.provider, e.state, false), v);
  }

  // ---- Claiming a flow ----

  lemma ClaimThread(s: State, t: Thread, id: FlowId, u: Thread)
    requires id in s.table.flows && !s.table.flows[id].data.finalizing && u != t
    requires u in s.threads && ThreadOk(s, u)
    ensures ThreadOk(Claim(s, t, id), u)
  {
  }

  lemma ClaimKeeps(s: State, t: Thread, id: FlowId)
    requires Inv(s) && t !in s.table.held && id in s.table.flows && !s.table.flows[id].data.finalizing
    ensures Inv(Claim(s, t, id))
  {
    var v := Claim(s, t, id);
    SetDataKeepsInv(s.table, id, s.table.flows[id].data.(finalizing := true));
    assert FlowOk(s, id);
    forall i | i in v.table.flows ensures FlowOk(v, i) { assert i in s.table.flows && FlowOk(s, i); }
    forall u | u in v.threads ensures ThreadOk(v, u) { if u != t { ClaimThread(s, t, id, u); } }
  }

  lemma ExchangeKeeps(s: State, t: Thread, id: FlowId, owner: string, provider: Provider, returned: string, v: State)
    requires Inv(s) && t !in s.table.held && v == ExchangeClean(s, t, id, owner, provider, returned)
    ensures Inv(v)
  {
    if id in s.table.flows && v == Claim(s, t, id) && !s.table.flows[id].data.finalizing { ClaimKeeps(s, t, id); }
    else { MoveKeeps(s, t, Done); }
  }

  lemma ExchangeEventKeeps(s: State, t: Thread, id: FlowId, owner: string, provider: Provider, returned: string, now: int, v: State)
    requires ExchangeStep(s, t, id, owner, provider, returned, now) == Some(v) && Inv(s)
    ensures Inv(v)
  {
    DropKeeps(s, ExpiredIds(s.table.flows, now));
    ExchangeKeeps(s.(table := Cleanup(s.table, now)), t, id, owner, provider, returned, v);
  }

  // ---- The answer, and giving a claim up ----

  lemma AnswerKeeps(s: State, t: Thread, answer: Answer)
    requires Inv(s) && AnswerStep(s, t, answer).Some?
    ensures Inv(AnswerStep(s, t, answer).value)
  {
    var v := AnswerStep(s, t, answer).value;
    assert ThreadOk(s, t);
    forall i | i in v.table.flows ensures FlowOk(v, i) { assert FlowOk(s, i); }
    forall u | u in v.threads ensures ThreadOk(v, u) { assert ThreadOk(s, u); }
  }

  lemma ClearThread(s: State, t: Thread, u: Thread)
    requires ClearStep(s, t).Some? && ThreadOk(s, t)
    requires u in s.threads && ThreadOk(s, u)
    ensures ThreadOk(ClearStep(s, t).value, u)
  {
  }

  lemma ClearKeeps(s: State, t: Thread)
    requires Inv(s) && ClearStep(s, t).Some?
    ensures Inv(ClearStep(s, t).value)
  {
    var v := ClearStep(s, t).value;
    var id := s.threads[t].id;
    assert ThreadOk(s, t);
    if id in s.table.flows { SetDataKeepsInv(s.table, id, s.table.flows[id].data.(finalizing := false)); }
    forall i | i in v.table.flows ensures FlowOk(v, i) { assert FlowOk(s, i); }
    forall u | u in v.threads ensures ThreadOk(v, u) { ClearThread(s, t, u); }
  }

  // ---- Creating the account ----

  lemma CreateThread(s: State, t: Thread, ok: bool, u: Thread)
    requires CreateStep(s, t, ok).Some? && ThreadOk(s, t)
    requires u in s.threads && ThreadOk(s, u)
    ensures ThreadOk(CreateStep(s, t, ok).value, u)
  {
  }

  lemma CreateFlow(s: State, t: Thread, ok: bool, i: FlowId)
    requires CreateStep(s, t, ok).Some? && ThreadOk(s, t)
    requires i in s.table.flows && FlowOk(s, i)
    ensures FlowOk(CreateStep(s, t, ok).value, i)
  {
  }

  lemma CreateKeeps(s: State, t: Thread, ok: bool)
    requires Inv(s) && CreateStep(s, t, ok).Some?
    ensures Inv(CreateStep(s, t, ok).value)
  {
    var v := CreateStep(s, t, ok).value;
    assert ThreadOk(s, t);
    forall i | i in v.table.flows ensures FlowOk(v, i) { CreateFlow(s, t, ok, i); }
    forall u | u in v.threads ensures ThreadOk(v, u) { CreateThread(s, t, ok, u); }
  }

  // ---- Removing a flow and closing its client ----

  lemma RemoveThread(s: State, t: Thread, u: Thread)
    requires RemoveStep(s, t).Some? && ThreadOk(s, t)
    requires u in s.threads && ThreadOk(s, u)
    ensures ThreadOk(RemoveStep(s, t).value, u)
  {
  }

  lemma RemoveKeeps(s: State, t: Thread)
    requires Inv(s) && RemoveStep(s, t).Some?
    ensures Inv(RemoveStep(s, t).value)
  {
    var v := RemoveStep(s, t).value;
    RemoveKeepsInv(s.table, t, s.threads[t].id);
    forall i | i in v.table.flows ensures FlowOk(v, i) { assert FlowOk(s, i); }
    forall u | u in v.threads ensures ThreadOk(v, u) { RemoveThread(s, t, u); }
  }

  lemma CloseKeeps(s: State, t: Thread)
    requires Inv(s) && CloseStep(s, t).Some?
    ensures Inv(CloseStep(s, t).value)
  {
    var v := CloseStep(s, t).value;
    CloseHeldKeepsInv(s.table, t);
    forall i | i in v.table.flows ensures FlowOk(v, i) { assert FlowOk(s, i); }
    forall u | u in v.threads ensures ThreadOk(v, u) { assert ThreadOk(s, u); }
  }

  lemma BuildKeeps(s: State, t: Thread, c: Client)
    requires Inv(s) && t !in s.threads && t !in s.table.held && c !in s.table.closes
    ensures Inv(At(s.(table := Build(s.table, t, c)), t, Starting))
  {
    var v := At(s.(table := Build(s.table, t, c)), t, Starting);
    BuildKeepsInv(s.table, t, c);
    forall i | i in v.table.flows ensures FlowOk(v, i) { assert FlowOk(s, i); }
    forall u | u in v.threads ensures ThreadOk(v, u) { if u != t { assert ThreadOk(s, u); } }
  }

  lemma InvStep(s: State, e: Event)
    requires Inv(s) && Step(s, e).Some?
    ensures Inv(Step(s, e).value)
  {
    match e
    case BuildClient(t, c) => BuildKeeps(s, t, c);
    case StartFailed(t) => CloseKeeps(s, t);
    case StartLocked(_, _, _, _, _, _, _) => StartEventKeeps(s, e, StartStep(s, e).value);
    case ExchangeLocked(t, id, owner, provider, returned, now) =>
      ExchangeEventKeeps(s, t, id, owner, provider, returned, now, Step(s, e).value);
    case Answered(t, answer) => AnswerKeeps(s, t, answer);
    case ClearLocked(t) => ClearKeeps(s, t);
    case CreateSubscription(t, ok) => CreateKeeps(s, t, ok);
    case RemoveLocked(t) => RemoveKeeps(s, t);
    case CloseClient(t) => CloseKeeps(s, t);
    case ShutdownLocked => DropKeeps(s, s.table.flows.Keys);
  }

  // ---- What holds over every run ----

  ghost predicate Reaches(run: seq<Event>, s: State) { Runs.Exec(Step, INIT, run) == Some(s) }

  lemma RunKeepsInv(s: State, run: seq<Event>)
    requires Inv(s) && Runs.Exec(Step, s, run).Some?
    ensures Inv(Runs.Exec(Step, s, run).value)
  {
    forall p, e | Inv(p) && Step(p, e).Some? ensures Inv(Step(p, e).value) { InvStep(p, e); }
    Runs.Invariant(Step, p => Inv(p), s, run);
  }

  /** At most one account per login. */
  lemma OneAccountPerFlow(run: seq<Event>, s: State)
    requires Reaches(run, s)
    ensures forall i, j :: 0 <= i < |s.created| && 0 <= j < |s.created| && s.created[i] == s.created[j] ==> i == j
  {
    RunKeepsInv(INIT, run);
  }

  /** One thread at a time exchanges the code or creates the account of a flow. */
  lemma OneClaimantPerFlow(run: seq<Event>, s: State, t: Thread, u: Thread)
    requires Reaches(run, s)
    requires t in s.threads && s.threads[t].Claiming() && u in s.threads && s.threads[u].Claiming()
    requires s.threads[t].id == s.threads[u].id
    ensures t == u
  {
    RunKeepsInv(INIT, run);
    assert ThreadOk(s, t) && ThreadOk(s, u);
  }

  /** Finalizing goes from true to false only in the hands of the thread that set it last. */
  lemma ClearsOwnClaimOnly(run: seq<Event>, s: State, e: Event, id: FlowId)
    requires Reaches(run, s) && Step(s, e).Some?
    requires id in s.table.flows && s.table.flows[id].data.finalizing
    requires id in Step(s, e).value.table.flows && !Step(s, e).value.table.flows[id].data.finalizing
    ensures e.ClearLocked? && id in s.claims && s.claims[id] == e.t
  {
    RunKeepsInv(INIT, run);
    OnlyClearUnsets(s, e, id);
    assert ThreadOk(s, e.t);
  }

  lemma OnlyClearUnsets(s: State, e: Event, id: FlowId)
    requires Step(s, e).Some? && id in s.table.used
    requires id in s.table.flows && s.table.flows[id].data.finalizing
    requires id in Step(s, e).value.table.flows && !Step(s, e).value.table.flows[id].data.finalizing
    ensures e.ClearLocked? && e.t in s.threads && s.threads[e.t].Clearing? && s.threads[e.t].id == id
  {
  }

  ghost predicate Gone(s: State, id: FlowId) { id in s.table.used && id !in s.table.flows }

  lemma GoneStart(s: State, e: Event, id: FlowId)
    requires e.StartLocked? && StartStep(s, e).Some? && Gone(s, id)
    ensures Gone(StartStep(s, e).value, id) && StartStep(s, e).value.claims == s.claims
  {
  }

  lemma GoneExchange(s: State, t: Thread, id: FlowId, owner: string, provider: Provider, returned: string, i: FlowId)
    requires Gone(s, i)
    ensures var v := ExchangeClean(s, t, id, owner, provider, returned);
            Gone(v, i) && (i in v.claims <==> i in s.claims) && (i in s.claims ==> v.claims[i] == s.claims[i])
  {
  }

  /** A flow removed, expired or shut down is never claimed again. */
  lemma GoneStep(s: State, e: Event, id: FlowId, v: State)
    requires Step(s, e) == Some(v) && Gone(s, id)
    ensures Gone(v, id) && (id in v.claims <==> id in s.claims) && (id in s.claims ==> v.claims[id] == s.claims[id])
  {
    if e.ExchangeLocked? { GoneExchange(s.(table := Cleanup(s.table, e.now)), e.t, e.id, e.owner, e.provider, e.returned, id); }
    else if e.StartLocked? { GoneStart(s, e, id); }
  }

  lemma {:induction false} GoneForGood(s: State, run: seq<Event>, s': State, id: FlowId)
    requires Runs.Exec(Step, s, run) == Some(s') && Gone(s, id)
    ensures Gone(s', id) && (id in s'.claims <==> id in s.claims) && (id in s.claims ==> s'.claims[id] == s.claims[id])
    decreases |run|
  {
    if run != [] {
      GoneStep(s, run[0], id, Step(s, run[0]).value);
      GoneForGood(Step(s, run[0]).value, run[1..], s', id);
    }
  }

  /** A claim on an unclaimed flow. */
  lemma ExchangeClaims(s: State, t: Thread, id: FlowId, now: int) returns (e: Event, s': State)
    requires t !in s.threads && t !in s.table.held && id in s.table.flows && !Expired(s.table.flows[id], now)
    requires !s.table.flows[id].data.finalizing
    ensures e.ExchangeLocked? && e.t == t && e.id == id && Step(s, e) == Some(s')
    ensures id in s'.table.flows && s'.table.flows[id].expiresAt == s.table.flows[id].expiresAt && s'.table.held == s.table.held
    ensures s'.threads == s.threads[t := Exchanging(id, s.table.flows[id].data.provider)]
  {
    var f := s.table.flows[id];
    e := ExchangeLocked(t, id, f.owner, f.data.provider, f.data.state, now);
    s' := Claim(s.(table := Cleanup(s.table, now)), t, id);
  }

  /** From its clearing on: another thread claims the flow, then the first one removes it. */
  lemma ClearedClaimedRemoved(s: State, t: Thread, id: FlowId, u: Thread, now: int) returns (run: seq<Event>, s': State)
    requires t in s.threads && s.threads[t] == Clearing(id, true) && t !in s.table.held
    requires id in s.table.flows && !Expired(s.table.flows[id], now) && u !in s.threads && u !in s.table.held
    ensures |run| == 3 && run[0] == ClearLocked(t) && run[2] == RemoveLocked(t) && Runs.Exec(Step, s, run) == Some(s')
    ensures u in s'.threads && s'.threads[u].Exchanging? && s'.threads[u].id == id && id !in s'.table.flows
  {
    var s1 := ClearStep(s, t).value;
    var e, s2 := ExchangeClaims(s1, u, id, now);
    s' := RemoveStep(s2, t).value;
    run := [ClearLocked(t), e, RemoveLocked(t)];
    Runs.Sequence(Step, s, run, [s, s1, s2, s']);
  }

  /** A login is started. */
  lemma LoginStarted(a: Thread, c: Client, id: FlowId, provider: Provider, expiresAt: int, now: int) returns (run: seq<Event>, s: State)
    ensures Reaches(run, s) && s.threads == map[a := Done] && s.table.held == map[]
    ensures s.table.flows == map[id := Flow([], expiresAt, c, PkceData(provider, [], false))]
  {
    run := [BuildClient(a, c), StartLocked(a, id, [], expiresAt, provider, [], now)];
    var s1 := Step(INIT, run[0]).value;
    s := Step(s1, run[1]).value;
    Runs.Sequence(Step, INIT, run, [INIT, s1, s]);
  }

  /** It is claimed, and its grant turns out to be invalid. */
  lemma InvalidGrantReached(a: Thread, t: Thread, c: Client, id: FlowId, provider: Provider, expiresAt: int, now: int)
    returns (run: seq<Event>, s: State)
    requires a != t && now < expiresAt
    ensures Reaches(run, s) && s.threads.Keys == {a, t} && s.threads[t] == Clearing(id, true) && s.table.held == map[]
    ensures id in s.table.flows && !Expired(s.table.flows[id], now)
  {
    var start, s1 := LoginStarted(a, c, id, provider, expiresAt, now);
    var claim, s2 := ExchangeClaims(s1, t, id, now);
    s := At(s2, t, Clearing(id, true));
    assert Step(s2, Answered(t, InvalidGrant)) == Some(s);
    run := Runs.Extended(Step, INIT, start, s1, claim, s2);
    run := Runs.Extended(Step, INIT, run, s2, Answered(t, InvalidGrant), s);
  }

  /**
   Between an invalid_grant's clearing and its removal another thread can claim the flow, and loses it while it
   exchanges: from the server's start on, whatever the threads, the flow and the times.
   */
  lemma ClaimedFlowRemoved(a: Thread, t: Thread, u: Thread, c: Client, id: FlowId, provider: Provider, expiresAt: int, now: int)
    requires a != t && a != u && t != u && now < expiresAt
    ensures exists run, s :: Reaches(run, s) && u in s.threads && s.threads[u].Exchanging? && s.threads[u].id == id && id !in s.table.flows
  {
    var first, s1 := InvalidGrantReached(a, t, c, id, provider, expiresAt, now);
    var second, s2 := ClearedClaimedRemoved(s1, t, id, u, now);
    Runs.ExecAppend(Step, INIT, first, second);
    assert Reaches(first + second, s2);
  }

  /** At most twenty pending logins; each client is held by one thread, owned by one flow, or closed once. */
  lemma ClientsAccountedFor(run: seq<Event>, s: State, c: Client)
    requires Reaches(run, s) && c in s.table.closes
    ensures |s.table.flows| <= 20 && s.table.closes[c] <= 1
    ensures s.table.closes[c] == 0 <==>
            || (exists a :: a in s.table.held && s.table.held[a] == c)
            || (exists i :: i in s.table.flows && s.table.flows[i].client == c)
    ensures forall i, j :: i in s.table.flows && j in s.table.flows && s.table.flows[i].client == c == s.table.flows[j].client ==> i == j
    ensures forall a, i :: a in s.table.held && i in s.table.flows && s.table.held[a] == c ==> s.table.flows[i].client != c
  {
    RunKeepsInv(INIT, run);
    ClientAccountedFor(s.table, c);
  }
}

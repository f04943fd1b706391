/**
 The Grok device login as a state machine over the sections its handlers run under the mutex and the
 network and database calls between them. Durations and times are in nanoseconds.
 */
module DeviceFlow {
  import opened Prelude
  import opened FlowTable
  import Runs

  const SECOND := 1_000_000_000

  datatype GrokData = GrokData(nextPollAt: int, interval: int, polling: bool, finalizing: bool, token: Option<string>)

  /** What the token endpoint said to a poll. */
  datatype Answer = Unreachable | Token(access: string) | EmptyToken | SlowDownAnswer | Denied | ExpiredToken | OtherError | PendingAnswer

  datatype Pc =
    | Starting
    | Requesting(id: FlowId)
    | SlowingDown(id: FlowId)
    | Finishing(id: FlowId)
    | Creating(id: FlowId, token: string)
    | Undoing(id: FlowId)                 // CreateSubscription failed; Finalizing not yet cleared
    | Created(id: FlowId)                 // account created; flow not yet removed
    | Removing(id: FlowId)                // denied or expired; flow not yet removed
    | Closing                             // holds the client of a flow it took out
    | Done
  {
    /** Between setting Finalizing and giving it up or removing the flow. */
    predicate Claiming() { Creating? || Undoing? || Created? }
    predicate OnFlow() { !Starting? && !Closing? && !Done? }
  }

  /** A token request: its flow, the time it was stamped with and the interval then in force. */
  datatype Request = Request(id: FlowId, stamp: int, interval: int)

  datatype State = State(
    table: Table<GrokData>,
    threads: map<Thread, Pc>,
    clock: int,
    // history
    requests: seq<Request>,
    stored: set<(FlowId, string)>,       // tokens stored in a flow that was in the map
    created: seq<(FlowId, string)>,      // successful CreateSubscription calls and the token used
    pollers: map<FlowId, Thread>,        // who last sent a token request for the flow
    claims: map<FlowId, Thread>)         // who last set Finalizing

  datatype Event =
    | Tick(now: int)
    | BuildClient(t: Thread, c: Client)
    | StartFailed(t: Thread)
    | StartLocked(t: Thread, id: FlowId, owner: string, expiresAt: int, interval: int, now: int)
    | PollLocked(t: Thread, id: FlowId, owner: string, now: int)
    | Answered(t: Thread, answer: Answer)
    | SlowDownLocked(t: Thread)
    | FinishLocked(t: Thread)
    | CreateSubscription(t: Thread, ok: bool)
    | UndoLocked(t: Thread)
    | RemoveLocked(t: Thread)
    | CloseClient(t: Thread)
    | ShutdownLocked

  /** time.Duration(seconds) * time.Second, which wraps around at 64 bits. */
  function Seconds(n: int): int {
    (n * SECOND + 0x8000_0000_0000_0000) % 0x1_0000_0000_0000_0000 - 0x8000_0000_0000_0000
  }

  /** The poll interval a flow starts with, from the seconds the provider sent. */
  function StartInterval(rawInterval: int): (interval: int)
    ensures SECOND <= interval <= 30 * SECOND
  {
    var i := Seconds(rawInterval);
    if i < SECOND then 5 * SECOND else if i > 30 * SECOND then 30 * SECOND else i
  }

  /** One to thirty seconds are used as they are; less, negative values included, gives five and more gives thirty. */
  lemma IntervalUsed(seconds: int)
    requires -9_223_372_036 <= seconds <= 9_223_372_036
    ensures StartInterval(seconds) == if seconds < 1 then 5_000_000_000 else if seconds > 30 then 30_000_000_000 else seconds * 1_000_000_000
  {
    var n := seconds * SECOND;
    assert -0x8000_0000_0000_0000 <= n < 0x8000_0000_0000_0000;
    assert Seconds(seconds) == n;
  }

  function Slower(interval: int): int {
    if interval + 5 * SECOND > 30 * SECOND then 30 * SECOND else interval + 5 * SECOND
  }

  function At(s: State, t: Thread, pc: Pc): State { s.(threads := s.threads[t := pc]) }

  function WithData(s: State, id: FlowId, d: GrokData): State
    requires id in s.table.flows
  {
    s.(table := SetData(s.table, id, d))
  }

  /** The locked section that files a login; see StartInterval for the interval it is called with. */
  function StartStep(s: State, e: Event): Option<State>
    requires e.StartLocked?
  {
    if e.t !in s.threads || !s.threads[e.t].Starting? || e.t !in s.table.held || e.id in s.table.used || e.now > s.clock
       || e.interval < SECOND || e.interval > 30 * SECOND
    then None
    else Some(StartClean(s.(table := Cleanup(s.table, e.now)), e.t, e.id, e.owner, e.expiresAt, e.now, e.interval))
  }

  /** At capacity the client stays with the thread, which closes it. */
  function StartClean(s: State, t: Thread, id: FlowId, owner: string, expiresAt: int, now: int, interval: int): State
    requires t in s.table.held
  {
    if |s.table.flows| >= MAX_PENDING then At(s, t, Closing) else FileFlow(s, t, id, owner, expiresAt, now, interval)
  }

  function FileFlow(s: State, t: Thread, id: FlowId, owner: string, expiresAt: int, now: int, interval: int): State
    requires t in s.table.held
  {
    At(s.(table := File(s.table, t, id, owner, expiresAt, GrokData(now + interval, interval, false, false, None))), t, Done)
  }

  /** The first locked section of a poll. */
  function PollStep(s: State, t: Thread, id: FlowId, owner: string, now: int): Option<State> {
    if t in s.threads || t in s.table.held || now > s.clock then None
    else Some(PollClean(s.(table := Cleanup(s.table, now)), t, id, owner, now))
  }

  /** What that section does once expired flows are gone. */
  function PollClean(s: State, t: Thread, id: FlowId, owner: string, now: int): State {
    if id !in s.table.flows || s.table.flows[id].owner != owner then At(s, t, Done)
    else
      var d := s.table.flows[id].data;
      if d.token.Some? then At(s, t, Finishing(id))
      else if d.polling || now < d.nextPollAt then At(s, t, Done)
      else Ask(s, t, id, now)
  }

  /** The poll that sends a token request. */
  function Ask(s: State, t: Thread, id: FlowId, now: int): State
    requires id in s.table.flows
  {
    var d := s.table.flows[id].data;
    At(WithData(s, id, d.(polling := true, nextPollAt := now + d.interval)), t, Requesting(id))
      .(requests := s.requests + [Request(id, now, d.interval)], pollers := s.pollers[id := t])
  }

  function AfterAnswer(answer: Answer, id: FlowId): Pc {
    if answer.Token? then Finishing(id)
    else if answer.SlowDownAnswer? then SlowingDown(id)
    else if answer.Denied? || answer.ExpiredToken? then Removing(id)
    else Done
  }

  /** The second locked section of a poll, and where the handler goes from there. */
  function AnswerStep(s: State, t: Thread, answer: Answer): Option<State> {
    if t !in s.threads || !s.threads[t].Requesting? || (answer.Token? && answer.access == "") then None
    else
      var id := s.threads[t].id;
      var next := AfterAnswer(answer, id);
      if id !in s.table.flows then Some(At(s, t, next))
      else
        var d := s.table.flows[id].data.(polling := false);
        if answer.Token? then
          Some(At(WithData(s, id, d.(token := Some(answer.access))), t, next).(stored := s.stored + {(id, answer.access)}))
        else Some(At(WithData(s, id, d), t, next))
  }

  function SlowDownStep(s: State, t: Thread): Option<State> {
    if t !in s.threads || !s.threads[t].SlowingDown? then None
    else
      var id := s.threads[t].id;
      if id !in s.table.flows then Some(At(s, t, Done))
      else
        var d := s.table.flows[id].data;
        var i := Slower(d.interval);
        Some(At(WithData(s, id, d.(interval := i, nextPollAt := s.clock + i)), t, Done))
  }

  /** The locked section at the start of finishGrokOAuthFlow. */
  function FinishStep(s: State, t: Thread): Option<State> {
    if t !in s.threads || !s.threads[t].Finishing? then None
    else
      var id := s.threads[t].id;
      if id !in s.table.flows || s.table.flows[id].data.token.None? || s.table.flows[id].data.finalizing
      then Some(At(s, t, Done))
      else
        var d := s.table.flows[id].data;
        Some(At(WithData(s, id, d.(finalizing := true)), t, Creating(id, d.token.value)).(claims := s.claims[id := t]))
  }

  function CreateStep(s: State, t: Thread, ok: bool): Option<State> {
    if t !in s.threads || !s.threads[t].Creating? then None
    else
      var pc := s.threads[t];
      if ok then Some(At(s, t, Created(pc.id)).(created := s.created + [(pc.id, pc.token)]))
      else Some(At(s, t, Undoing(pc.id)))
  }

  function UndoStep(s: State, t: Thread): Option<State> {
    if t !in s.threads || !s.threads[t].Undoing? then None
    else
      var id := s.threads[t].id;
      if id !in s.table.flows then Some(At(s, t, Done))
      else Some(At(WithData(s, id, s.table.flows[id].data.(finalizing := false)), t, Done))
  }

  function RemoveStep(s: State, t: Thread): Option<State> {
    if t !in s.threads || !(s.threads[t].Removing? || s.threads[t].Created?) || t in s.table.held then None
    else
      var id := s.threads[t].id;
      Some(At(s.(table := Remove(s.table, t, id)), t, if id in s.table.flows then Closing else Done))
  }

  function CloseStep(s: State, t: Thread): Option<State> {
    if t !in s.threads || t !in s.table.held || s.table.held[t] !in s.table.closes then None
    else Some(At(s.(table := CloseHeld(s.table, t)), t, Done))
  }

  function Step(s: State, e: Event): Option<State> {
    match e
    case Tick(now) => if now < s.clock then None else Some(s.(clock := now))
    case BuildClient(t, c) =>
      if t in s.threads || t in s.table.held || c in s.table.closes then None
      else Some(At(s.(table := Build(s.table, t, c)), t, Starting))
    case StartFailed(t) => if t in s.threads && s.threads[t].Starting? then CloseStep(s, t) else None
    case StartLocked(_, _, _, _, _, _) => StartStep(s, e)
    case PollLocked(t, id, owner, now) => PollStep(s, t, id, owner, now)
    case Answered(t, answer) => AnswerStep(s, t, answer)
    case SlowDownLocked(t) => SlowDownStep(s, t)
    case FinishLocked(t) => FinishStep(s, t)
    case CreateSubscription(t, ok) => CreateStep(s, t, ok)
    case UndoLocked(t) => UndoStep(s, t)
    case RemoveLocked(t) => RemoveStep(s, t)
    case CloseClient(t) => if t in s.threads && s.threads[t].Closing? then CloseStep(s, t) else None
    case ShutdownLocked => Some(s.(table := Shutdown(s.table)))
  }

  function Init(clock: int): State {
    State(Table(map[], map[], map[], {}, map[]), map[], clock, [], {}, [], map[], map[])
  }

  // ---- The invariant ----

  ghost predicate NotCreated(created: seq<(FlowId, string)>, id: FlowId) {
    forall i :: 0 <= i < |created| ==> created[i].0 != id
  }

  /** Every request for the flow ran its full interval by `next`, and its interval was at most `interval`. */
  ghost predicate SpacedBy(requests: seq<Request>, id: FlowId, interval: int, next: int) {
    forall i :: 0 <= i < |requests| && requests[i].id == id ==>
      requests[i].interval <= interval && requests[i].stamp + requests[i].interval <= next
  }

  ghost predicate DataOk(d: GrokData, id: FlowId, stored: set<(FlowId, string)>, created: seq<(FlowId, string)>,
                         requests: seq<Request>) {
    && SECOND <= d.interval <= 30 * SECOND
    && (d.token.Some? ==> (id, d.token.value) in stored)
    && (!d.finalizing ==> NotCreated(created, id))
    && SpacedBy(requests, id, d.interval, d.nextPollAt)
  }

  ghost predicate FlowOk(s: State, id: FlowId)
    requires id in s.table.flows
  {
    DataOk(s.table.flows[id].data, id, s.stored, s.created, s.requests)
  }

  ghost predicate ThreadOk(s: State, t: Thread)
    requires t in s.threads
  {
    var pc := s.threads[t];
    && (t in s.table.held ==> pc.Starting? || pc.Closing?)
    && (pc.OnFlow() ==> pc.id in s.table.used)
    && (pc.Requesting? ==>
          && pc.id in s.pollers && s.pollers[pc.id] == t
          && (pc.id in s.table.flows ==> s.table.flows[pc.id].data.polling))
    && (pc.Claiming() ==>
          && pc.id in s.claims && s.claims[pc.id] == t
          && (pc.id in s.table.flows ==> s.table.flows[pc.id].data.finalizing))
    && (pc.Creating? ==> (pc.id, pc.token) in s.stored)
    && (pc.Creating? || pc.Undoing? ==> NotCreated(s.created, pc.id))
  }

  /** Requests in the order of their stamps, each a full interval after the one before it for the same flow. */
  ghost predicate RequestsOk(requests: seq<Request>, used: set<FlowId>, clock: int) {
    && (forall i :: 0 <= i < |requests| ==>
          requests[i].id in used && requests[i].stamp <= clock && SECOND <= requests[i].interval <= 30 * SECOND)
    && (forall i, j :: 0 <= i < j < |requests| && requests[i].id == requests[j].id ==>
          requests[i].stamp + requests[i].interval <= requests[j].stamp)
  }

  /** No flow's account created twice, and none without a token stored in its flow. */
  ghost predicate CreatedOk(created: seq<(FlowId, string)>, stored: set<(FlowId, string)>, used: set<FlowId>) {
    && (forall p :: p in stored ==> p.0 in used)
    && (forall i :: 0 <= i < |created| ==> created[i] in stored)
    && (forall i, j :: 0 <= i < j < |created| ==> created[i].0 != created[j].0)
  }

  ghost predicate Inv(s: State) {
    && TableInv(s.table)
    && s.table.held.Keys <= s.threads.Keys
    && RequestsOk(s.requests, s.table.used, s.clock)
    && CreatedOk(s.created, s.stored, s.table.used)
    && (forall id :: id in s.table.flows ==> FlowOk(s, id))
    && (forall t :: t in s.threads ==> ThreadOk(s, t))
  }

  // ---- Expired flows and shutdown ----

  lemma DropKeeps(s: State, ids: set<FlowId>)
    requires Inv(s)
    ensures Inv(s.(table := Drop(s.table, ids)))
  {
    DropKeepsInv(s.table, ids);
  }

  // ---- Starting a login ----

  lemma UnusedIsFresh(s: State, id: FlowId, interval: int, next: int)
    requires RequestsOk(s.requests, s.table.used, s.clock) && CreatedOk(s.created, s.stored, s.table.used)
    requires id !in s.table.used
    ensures NotCreated(s.created, id) && SpacedBy(s.requests, id, interval, next)
  {
  }

  lemma UsedGrows(s: State, used: set<FlowId>)
    requires RequestsOk(s.requests, s.table.used, s.clock) && CreatedOk(s.created, s.stored, s.table.used)
    requires s.table.used <= used
    ensures RequestsOk(s.requests, used, s.clock) && CreatedOk(s.created, s.stored, used)
  {
  }

  lemma FileThread(s: State, t: Thread, id: FlowId, owner: string, expiresAt: int, now: int, interval: int, u: Thread)
    requires t in s.table.held && t in s.threads && id !in s.table.used
    requires u in s.threads && ThreadOk(s, u)
    ensures ThreadOk(FileFlow(s, t, id, owner, expiresAt, now, interval), u)
  {
  }

  lemma FileKeeps(s: State, t: Thread, id: FlowId, owner: string, expiresAt: int, now: int, interval: int)
    requires Inv(s) && t in s.table.held && t in s.threads && id !in s.table.used && |s.table.flows| < MAX_PENDING
    requires SECOND <= interval <= 30 * SECOND
    ensures Inv(FileFlow(s, t, id, owner, expiresAt, now, interval))
  {
    var v := FileFlow(s, t, id, owner, expiresAt, now, interval);
    FileKeepsInv(s.table, t, id, owner, expiresAt, GrokData(now + interval, interval, false, false, None));
    UsedGrows(s, v.table.used);
    UnusedIsFresh(s, id, interval, now + interval);
    forall i | i in v.table.flows ensures FlowOk(v, i) { if i != id { assert FlowOk(s, i); } }
    forall u | u in v.threads ensures ThreadOk(v, u) { FileThread(s, t, id, owner, expiresAt, now, interval, u); }
  }

  /** A thread told to close the client it holds. */
  lemma ClosingKeeps(s: State, t: Thread)
    requires Inv(s) && t in s.threads
    ensures Inv(At(s, t, Closing))
  {
    var v := At(s, t, Closing);
    forall i | i in v.table.flows ensures FlowOk(v, i) { assert FlowOk(s, i); }
    forall u | u in v.threads ensures ThreadOk(v, u) { assert ThreadOk(s, u); }
  }

  lemma StartKeeps(s: State, t: Thread, id: FlowId, owner: string, expiresAt: int, now: int, interval: int, v: State)
    requires Inv(s) && t in s.table.held && t in s.threads && id !in s.table.used
    requires SECOND <= interval <= 30 * SECOND
    requires v == StartClean(s, t, id, owner, expiresAt, now, interval)
    ensures Inv(v)
  {
    if |s.table.flows| >= MAX_PENDING { ClosingKeeps(s, t); }
    else { FileKeeps(s, t, id, owner, expiresAt, now, interval); }
  }

  lemma StartEventKeeps(s: State, e: Event, v: State)
    requires e.StartLocked? && StartStep(s, e) == Some(v) && Inv(s)
    ensures Inv(v)
  {
    DropKeeps(s, ExpiredIds(s.table.flows, e.now));
    StartKeeps(s.(table := Cleanup(s.table, e.now)), e.t, e.id, e.owner, e.expiresAt, e.now, e.interval, v);
  }

  // ---- Polling ----

  lemma RequestsAppend(requests: seq<Request>, q: Request, used: set<FlowId>, clock: int, interval: int, next: int)
    requires RequestsOk(requests, used, clock) && SpacedBy(requests, q.id, interval, next)
    requires q.id in used && next <= q.stamp <= clock && SECOND <= q.interval <= 30 * SECOND
    ensures RequestsOk(requests + [q], used, clock)
  {
  }

  lemma AskData(d: GrokData, id: FlowId, q: Request, stored: set<(FlowId, string)>, created: seq<(FlowId, string)>,
                requests: seq<Request>)
    requires DataOk(d, id, stored, created, requests)
    ensures q.id != id ==> DataOk(d, id, stored, created, requests + [q])
    ensures q.id == id && q.interval == d.interval && d.nextPollAt <= q.stamp ==>
              DataOk(d.(polling := true, nextPollAt := q.stamp + d.interval), id, stored, created, requests + [q])
  {
  }

  lemma AskThread(s: State, t: Thread, id: FlowId, now: int, u: Thread)
    requires id in s.table.flows && !s.table.flows[id].data.polling && u != t
    requires u in s.threads && ThreadOk(s, u)
    ensures ThreadOk(Ask(s, t, id, now), u)
  {
  }

  lemma AskRequests(s: State, id: FlowId, now: int)
    requires RequestsOk(s.requests, s.table.used, s.clock) && id in s.table.flows && FlowOk(s, id) && id in s.table.used
    requires s.table.flows[id].data.nextPollAt <= now <= s.clock
    ensures RequestsOk(s.requests + [Request(id, now, s.table.flows[id].data.interval)], s.table.used, s.clock)
  {
    var d := s.table.flows[id].data;
    RequestsAppend(s.requests, Request(id, now, d.interval), s.table.used, s.clock, d.interval, d.nextPollAt);
  }

  lemma AskFlow(s: State, t: Thread, id: FlowId, now: int, i: FlowId)
    requires id in s.table.flows && s.table.flows[id].data.nextPollAt <= now
    requires i in s.table.flows && FlowOk(s, i)
    ensures FlowOk(Ask(s, t, id, now), i)
  {
    AskData(s.table.flows[i].data, i, Request(id, now, s.table.flows[id].data.interval), s.stored, s.created, s.requests);
  }

  lemma AskTable(s: State, t: Thread, id: FlowId, now: int)
    requires TableInv(s.table) && id in s.table.flows
    ensures var v := Ask(s, t, id, now).table;
            TableInv(v) && v.held == s.table.held && v.used == s.table.used && v.flows.Keys == s.table.flows.Keys
  {
    var d := s.table.flows[id].data;
    SetDataKeepsInv(s.table, id, d.(polling := true, nextPollAt := now + d.interval));
  }

  lemma AskKeeps(s: State, t: Thread, id: FlowId, now: int)
    requires Inv(s) && t !in s.table.held && id in s.table.flows && now <= s.clock
    requires !s.table.flows[id].data.polling && s.table.flows[id].data.nextPollAt <= now
    ensures Inv(Ask(s, t, id, now))
  {
    var v := Ask(s, t, id, now);
    AskTable(s, t, id, now);
    AskRequests(s, id, now);
    forall i | i in v.table.flows ensures FlowOk(v, i) { AskFlow(s, t, id, now, i); }
    forall u | u in v.threads ensures ThreadOk(v, u) { if u != t { AskThread(s, t, id, now, u); } }
  }

  /** A poll that asks nothing: the thread answers at once or goes on to finish the flow. */
  lemma NoAskKeeps(s: State, t: Thread, pc: Pc)
    requires Inv(s) && t !in s.table.held && (pc == Done || (pc.Finishing? && pc.id in s.table.flows))
    ensures Inv(At(s, t, pc))
  {
    var v := At(s, t, pc);
    forall i | i in v.table.flows ensures FlowOk(v, i) { assert FlowOk(s, i); }
    forall u | u in v.threads ensures ThreadOk(v, u) { if u != t { assert ThreadOk(s, u); } }
  }

  lemma PollKeeps(s: State, t: Thread, id: FlowId, owner: string, now: int)
    requires Inv(s) && t !in s.table.held && now <= s.clock
    ensures Inv(PollClean(s, t, id, owner, now))
  {
    if id !in s.table.flows || s.table.flows[id].owner != owner {
      NoAskKeeps(s, t, Done);
    } else {
      var d := s.table.flows[id].data;
      if d.token.Some? { NoAskKeeps(s, t, Finishing(id)); }
      else if d.polling || now < d.nextPollAt { NoAskKeeps(s, t, Done); }
      else { AskKeeps(s, t, id, now); }
    }
  }

  // ---- The answer ----

  lemma AnswerFlow(s: State, t: Thread, answer: Answer, i: FlowId)
    requires AnswerStep(s, t, answer).Some?
    requires i in s.table.flows && FlowOk(s, i)
    ensures FlowOk(AnswerStep(s, t, answer).value, i)
  {
  }

  lemma AnswerThread(s: State, t: Thread, answer: Answer, u: Thread)
    requires AnswerStep(s, t, answer).Some? && ThreadOk(s, t)
    requires u in s.threads && ThreadOk(s, u)
    ensures ThreadOk(AnswerStep(s, t, answer).value, u)
  {
    if u == t { AnswerOwn(s, t, answer); } else { AnswerOther(s, t, answer, u); }
  }

  lemma AnswerOwn(s: State, t: Thread, answer: Answer)
    requires AnswerStep(s, t, answer).Some? && ThreadOk(s, t)
    ensures ThreadOk(AnswerStep(s, t, answer).value, t)
  {
  }

  lemma AnswerOther(s: State, t: Thread, answer: Answer, u: Thread)
    requires AnswerStep(s, t, answer).Some? && ThreadOk(s, t) && u != t
    requires u in s.threads && ThreadOk(s, u)
    ensures ThreadOk(AnswerStep(s, t, answer).value, u)
  {
  }

  lemma AnswerKeeps(s: State, t: Thread, answer: Answer)
    requires Inv(s) && AnswerStep(s, t, answer).Some?
    ensures Inv(AnswerStep(s, t, answer).value)
  {
    var v := AnswerStep(s, t, answer).value;
    var id := s.threads[t].id;
    assert ThreadOk(s, t);
    if id in s.table.flows {
      var d := s.table.flows[id].data.(polling := false);
      SetDataKeepsInv(s.table, id, if answer.Token? then d.(token := Some(answer.access)) else d);
    }
    forall i | i in v.table.flows ensures FlowOk(v, i) { AnswerFlow(s, t, answer, i); }
    forall u | u in v.threads ensures ThreadOk(v, u) { AnswerThread(s, t, answer, u); }
  }

  // ---- slow_down ----

  lemma SlowDownFlow(s: State, t: Thread, i: FlowId)
    requires SlowDownStep(s, t).Some? && RequestsOk(s.requests, s.table.used, s.clock)
    requires i in s.table.flows && FlowOk(s, i)
    ensures FlowOk(SlowDownStep(s, t).value, i)
  {
  }

  lemma SlowDownThread(s: State, t: Thread, u: Thread)
    requires SlowDownStep(s, t).Some? && ThreadOk(s, t)
    requires u in s.threads && ThreadOk(s, u)
    ensures ThreadOk(SlowDownStep(s, t).value, u)
  {
  }

  lemma SlowDownTable(s: State, t: Thread)
    requires SlowDownStep(s, t).Some? && TableInv(s.table)
    ensures var v := SlowDownStep(s, t).value; TableInv(v.table) && v.table.held == s.table.held && v.table.used == s.table.used
  {
    var id := s.threads[t].id;
    if id in s.table.flows {
      var d := s.table.flows[id].data;
      SetDataKeepsInv(s.table, id, d.(interval := Slower(d.interval), nextPollAt := s.clock + Slower(d.interval)));
    }
  }

  lemma SlowDownKeeps(s: State, t: Thread)
    requires Inv(s) && SlowDownStep(s, t).Some?
    ensures Inv(SlowDownStep(s, t).value)
  {
    var v := SlowDownStep(s, t).value;
    SlowDownTable(s, t);
    forall i | i in v.table.flows ensures FlowOk(v, i) { SlowDownFlow(s, t, i); }
    forall u | u in v.threads ensures ThreadOk(v, u) { SlowDownThread(s, t, u); }
  }

  // ---- Creating the account ----

  lemma FinishThread(s: State, t: Thread, u: Thread)
    requires FinishStep(s, t).Some? && ThreadOk(s, t)
    requires s.threads[t].id in s.table.flows ==> FlowOk(s, s.threads[t].id)
    requires u in s.threads && ThreadOk(s, u)
    ensures ThreadOk(FinishStep(s, t).value, u)
  {
  }

  lemma FinishKeeps(s: State, t: Thread)
    requires Inv(s) && FinishStep(s, t).Some?
    ensures Inv(FinishStep(s, t).value)
  {
    var v := FinishStep(s, t).value;
    var id := s.threads[t].id;
    if id in s.table.flows { SetDataKeepsInv(s.table, id, s.table.flows[id].data.(finalizing := true)); }
    forall i | i in v.table.flows ensures FlowOk(v, i) { assert FlowOk(s, i); }
    forall u | u in v.threads ensures ThreadOk(v, u) { FinishThread(s, t, u); }
  }

  lemma CreatedAppend(created: seq<(FlowId, string)>, p: (FlowId, string), stored: set<(FlowId, string)>, used: set<FlowId>)
    requires CreatedOk(created, stored, used) && NotCreated(created, p.0) && p in stored
    ensures CreatedOk(created + [p], stored, used)
    ensures forall id :: NotCreated(created, id) && id != p.0 ==> NotCreated(created + [p], id)
  {
  }

  lemma CreateThread(s: State, t: Thread, ok: bool, u: Thread)
    requires CreateStep(s, t, ok).Some? && ThreadOk(s, t)
    requires u in s.threads && ThreadOk(s, u)
    ensures ThreadOk(CreateStep(s, t, ok).value, u)
  {
  }

  lemma CreateFlow(s: State, t: Thread, ok: bool, i: FlowId)
    requires CreateStep(s, t, ok).Some? && ThreadOk(s, t)
    requires i in s.table.flows && FlowOk(s, i)
    ensures FlowOk(CreateStep(s, t, ok).value, i)
  {
  }

  lemma CreateKeeps(s: State, t: Thread, ok: bool)
    requires Inv(s) && CreateStep(s, t, ok).Some?
    ensures Inv(CreateStep(s, t, ok).value)
  {
    var v := CreateStep(s, t, ok).value;
    assert ThreadOk(s, t);
    CreatedAppend(s.created, (s.threads[t].id, s.threads[t].token), s.stored, s.table.used);
    forall i | i in v.table.flows ensures FlowOk(v, i) { CreateFlow(s, t, ok, i); }
    forall u | u in v.threads ensures ThreadOk(v, u) { CreateThread(s, t, ok, u); }
  }

  lemma UndoThread(s: State, t: Thread, u: Thread)
    requires UndoStep(s, t).Some? && ThreadOk(s, t)
    requires u in s.threads && ThreadOk(s, u)
    ensures ThreadOk(UndoStep(s, t).value, u)
  {
  }

  lemma UndoKeeps(s: State, t: Thread)
    requires Inv(s) && UndoStep(s, t).Some?
    ensures Inv(UndoStep(s, t).value)
  {
    var v := UndoStep(s, t).value;
    var id := s.threads[t].id;
    assert ThreadOk(s, t);
    if id in s.table.flows { SetDataKeepsInv(s.table, id, s.table.flows[id].data.(finalizing := false)); }
    forall i | i in v.table.flows ensures FlowOk(v, i) { assert FlowOk(s, i); }
    forall u | u in v.threads ensures ThreadOk(v, u) { UndoThread(s, t, u); }
  }

  // ---- Removing a flow and closing its client ----

  lemma RemoveThread(s: State, t: Thread, u: Thread)
    requires RemoveStep(s, t).Some? && ThreadOk(s, t)
    requires u in s.threads && ThreadOk(s, u)
    ensures ThreadOk(RemoveStep(s, t).value, u)
  {
  }

  lemma RemoveKeeps(s: State, t: Thread)
    requires Inv(s) && RemoveStep(s, t).Some?
    ensures Inv(RemoveStep(s, t).value)
  {
    var v := RemoveStep(s, t).value;
    RemoveKeepsInv(s.table, t, s.threads[t].id);
    forall i | i in v.table.flows ensures FlowOk(v, i) { assert FlowOk(s, i); }
    forall u | u in v.threads ensures ThreadOk(v, u) { RemoveThread(s, t, u); }
  }

  lemma CloseKeeps(s: State, t: Thread)
    requires Inv(s) && CloseStep(s, t).Some?
    ensures Inv(CloseStep(s, t).value)
  {
    var v := CloseStep(s, t).value;
    CloseHeldKeepsInv(s.table, t);
    forall i | i in v.table.flows ensures FlowOk(v, i) { assert FlowOk(s, i); }
    forall u | u in v.threads ensures ThreadOk(v, u) { assert ThreadOk(s, u); }
  }

  lemma BuildKeeps(s: State, t: Thread, c: Client)
    requires Inv(s) && t !in s.threads && t !in s.table.held && c !in s.table.closes
    ensures Inv(At(s.(table := Build(s.table, t, c)), t, Starting))
  {
    var v := At(s.(table := Build(s.table, t, c)), t, Starting);
    BuildKeepsInv(s.table, t, c);
    forall i | i in v.table.flows ensures FlowOk(v, i) { assert FlowOk(s, i); }
    forall u | u in v.threads ensures ThreadOk(v, u) { if u != t { assert ThreadOk(s, u); } }
  }

  lemma TickKeeps(s: State, now: int)
    requires Inv(s) && s.clock <= now
    ensures Inv(s.(clock := now))
  {
    var v := s.(clock := now);
    forall i | i in v.table.flows ensures FlowOk(v, i) { assert FlowOk(s, i); }
    forall u | u in v.threads ensures ThreadOk(v, u) { assert ThreadOk(s, u); }
  }

  /** The events around the flow itself. */
  lemma ClientEventKeeps(s: State, e: Event)
    requires Inv(s) && Step(s, e).Some?
    requires e.Tick? || e.BuildClient? || e.StartFailed? || e.CloseClient? || e.ShutdownLocked?
    ensures Inv(Step(s, e).value)
  {
    match e
    case Tick(now) => TickKeeps(s, now);
    case BuildClient(t, c) => BuildKeeps(s, t, c);
    case StartFailed(t) => CloseKeeps(s, t);
    case CloseClient(t) => CloseKeeps(s, t);
    case ShutdownLocked => DropKeeps(s, s.table.flows.Keys);
  }

  /** The events up to a token. */
  lemma PollEventKeeps(s: State, e: Event)
    requires Inv(s) && Step(s, e).Some? && (e.PollLocked? || e.Answered? || e.SlowDownLocked?)
    ensures Inv(Step(s, e).value)
  {
    match e
    case PollLocked(t, id, owner, now) =>
      DropKeeps(s, ExpiredIds(s.table.flows, now));
      PollKeeps(s.(table := Cleanup(s.table, now)), t, id, owner, now);
    case Answered(t, answer) => AnswerKeeps(s, t, answer);
    case SlowDownLocked(t) => SlowDownKeeps(s, t);
  }

  /** The events from the token to the account. */
  lemma FinishEventKeeps(s: State, e: Event)
    requires Inv(s) && Step(s, e).Some? && (e.FinishLocked? || e.CreateSubscription? || e.UndoLocked? || e.RemoveLocked?)
    ensures Inv(Step(s, e).value)
  {
    match e
    case FinishLocked(t) => FinishKeeps(s, t);
    case CreateSubscription(t, ok) => CreateKeeps(s, t, ok);
    case UndoLocked(t) => UndoKeeps(s, t);
    case RemoveLocked(t) => RemoveKeeps(s, t);
  }

  lemma InvStep(s: State, e: Event)
    requires Inv(s) && Step(s, e).Some?
    ensures Inv(Step(s, e).value)
  {
    if e.StartLocked? {
      StartEventKeeps(s, e, StartStep(s, e).value);
    } else if e.PollLocked? || e.Answered? || e.SlowDownLocked? {
      PollEventKeeps(s, e);
    } else if e.FinishLocked? || e.CreateSubscription? || e.UndoLocked? || e.RemoveLocked? {
      FinishEventKeeps(s, e);
    } else {
      ClientEventKeeps(s, e);
    }
  }

  // ---- What holds over every run ----

  ghost predicate Reaches(clock: int, run: seq<Event>, s: State) {
    Runs.Exec(Step, Init(clock), run) == Some(s)
  }

  lemma RunKeepsInv(s: State, run: seq<Event>)
    requires Inv(s) && Runs.Exec(Step, s, run).Some?
    ensures Inv(Runs.Exec(Step, s, run).value)
  {
    forall p, e | Inv(p) && Step(p, e).Some? ensures Inv(Step(p, e).value) { InvStep(p, e); }
    Runs.Invariant(Step, p => Inv(p), s, run);
  }

  /** At most one account per device login, and none without a token stored while its flow was pending. */
  lemma OneAccountPerFlow(clock: int, run: seq<Event>, s: State)
    requires Reaches(clock, run, s)
    ensures forall i, j :: 0 <= i < |s.created| && 0 <= j < |s.created| && s.created[i].0 == s.created[j].0 ==> i == j
    ensures forall i :: 0 <= i < |s.created| ==> s.created[i] in s.stored
  {
    RunKeepsInv(Init(clock), run);
  }

  /** What `stored` means: a token gets in only while its flow is in the map. */
  lemma StoredWhilePending(s: State, e: Event, id: FlowId, token: string)
    requires Step(s, e).Some? && (id, token) in Step(s, e).value.stored && (id, token) !in s.stored
    ensures id in s.table.flows && id in Step(s, e).value.table.flows
    ensures Step(s, e).value.table.flows[id].data.token == Some(token)
  {
  }

  /** Section 3.5 of RFC 8628: one token request per flow at a time. */
  lemma OneRequestInFlight(clock: int, run: seq<Event>, s: State, t: Thread, u: Thread)
    requires Reaches(clock, run, s)
    requires t in s.threads && s.threads[t].Requesting? && u in s.threads && s.threads[u].Requesting?
    requires s.threads[t].id == s.threads[u].id
    ensures t == u
  {
    RunKeepsInv(Init(clock), run);
    assert ThreadOk(s, t) && ThreadOk(s, u);
  }

  /** Section 3.5 of RFC 8628: two requests for a flow are the earlier one's interval apart, late slow_down or not. */
  lemma RequestsSpaced(clock: int, run: seq<Event>, s: State)
    requires Reaches(clock, run, s)
    ensures forall i, j :: 0 <= i < j < |s.requests| && s.requests[i].id == s.requests[j].id ==>
              s.requests[i].stamp + s.requests[i].interval <= s.requests[j].stamp
    ensures forall i :: 0 <= i < |s.requests| ==> SECOND <= s.requests[i].interval <= 30 * SECOND
  {
    RunKeepsInv(Init(clock), run);
  }

  lemma PollLeavesInterval(s: State, t: Thread, id: FlowId, owner: string, now: int, i: FlowId)
    requires i in PollClean(s, t, id, owner, now).table.flows
    ensures i in s.table.flows
    ensures PollClean(s, t, id, owner, now).table.flows[i].data.interval == s.table.flows[i].data.interval
  {
  }

  lemma OthersLeaveInterval(s: State, e: Event, id: FlowId)
    requires Step(s, e).Some? && id in s.table.flows && id in Step(s, e).value.table.flows && id in s.table.used
    requires !e.SlowDownLocked?
    ensures Step(s, e).value.table.flows[id].data.interval == s.table.flows[id].data.interval
  {
    if e.PollLocked? {
      PollLeavesInterval(s.(table := Cleanup(s.table, e.now)), e.t, e.id, e.owner, e.now, id);
    }
  }

  lemma SlowDownInterval(s: State, t: Thread, id: FlowId)
    requires SlowDownStep(s, t).Some? && id in s.table.flows && SECOND <= s.table.flows[id].data.interval <= 30 * SECOND
    ensures id in SlowDownStep(s, t).value.table.flows
    ensures var i, i' := s.table.flows[id].data.interval, SlowDownStep(s, t).value.table.flows[id].data.interval;
            i' == if s.threads[t].id != id then i else if i + 5 * SECOND < 30 * SECOND then i + 5 * SECOND else 30 * SECOND
  {
  }

  /** The interval is between 1 and 30 seconds, only slow_down changes it, and it never gets shorter. */
  lemma IntervalStep(s: State, e: Event, id: FlowId)
    requires Inv(s) && Step(s, e).Some? && id in s.table.flows && id in Step(s, e).value.table.flows
    ensures SECOND <= s.table.flows[id].data.interval <= 30 * SECOND
    ensures var i, i' := s.table.flows[id].data.interval, Step(s, e).value.table.flows[id].data.interval;
            && i <= i' <= 30 * SECOND
            && (i' != i ==> e.SlowDownLocked?)
            && (e.SlowDownLocked? && s.threads[e.t].id == id ==> i' == if i + 5 * SECOND < 30 * SECOND then i + 5 * SECOND else 30 * SECOND)
  {
    assert FlowOk(s, id);
    if e.SlowDownLocked? { SlowDownInterval(s, e.t, id); } else { OthersLeaveInterval(s, e, id); }
  }

  ghost predicate Gone(s: State, id: FlowId) { id in s.table.used && id !in s.table.flows }

  lemma GonePoll(s: State, t: Thread, id: FlowId, owner: string, now: int, i: FlowId)
    requires Gone(s, i)
    ensures var v := PollClean(s, t, id, owner, now);
            Gone(v, i) && s.requests <= v.requests && (forall k :: |s.requests| <= k < |v.requests| ==> v.requests[k].id != i)
  {
  }

  lemma GoneStart(s: State, e: Event, id: FlowId)
    requires e.StartLocked? && StartStep(s, e).Some? && Gone(s, id)
    ensures Gone(StartStep(s, e).value, id) && StartStep(s, e).value.requests == s.requests
  {
  }

  lemma GoneOther(s: State, e: Event, id: FlowId)
    requires Step(s, e).Some? && Gone(s, id) && !e.PollLocked? && !e.StartLocked?
    ensures Gone(Step(s, e).value, id) && Step(s, e).value.requests == s.requests
  {
  }

  /** A flow that has been removed or has expired stays out of the map, and nothing more is asked for it. */
  lemma GoneStep(s: State, e: Event, id: FlowId, v: State)
    requires Step(s, e) == Some(v) && Gone(s, id)
    ensures Gone(v, id) && s.requests <= v.requests
    ensures forall i :: |s.requests| <= i < |v.requests| ==> v.requests[i].id != id
  {
    if e.PollLocked? { GonePoll(s.(table := Cleanup(s.table, e.now)), e.t, e.id, e.owner, e.now, id); }
    else if e.StartLocked? { GoneStart(s, e, id); }
    else { GoneOther(s, e, id); }
  }

  lemma {:induction false} GoneForGood(s: State, run: seq<Event>, s': State, id: FlowId)
    requires Runs.Exec(Step, s, run) == Some(s') && Gone(s, id)
    ensures Gone(s', id) && s.requests <= s'.requests
    ensures forall i :: |s.requests| <= i < |s'.requests| ==> s'.requests[i].id != id
    decreases |run|
  {
    if run != [] {
      GoneStep(s, run[0], id, Step(s, run[0]).value);
      GoneForGood(Step(s, run[0]).value, run[1..], s', id);
    }
  }

  /** The poll of a flow that has a token and is not being finished. */
  lemma PollFinishes(s: State, t: Thread, id: FlowId, now: int) returns (s': State)
    requires t !in s.threads && t !in s.table.held && now <= s.clock && id in s.table.flows && !Expired(s.table.flows[id], now)
    requires s.table.flows[id].data.token.Some? && !s.table.flows[id].data.finalizing
    ensures Step(s, PollLocked(t, id, s.table.flows[id].owner, now)) == Some(s') && t in s'.threads && s'.threads[t] == Finishing(id)
    ensures id in s'.table.flows && s'.table.flows[id] == s.table.flows[id]
  {
    s' := At(s.(table := Cleanup(s.table, now)), t, Finishing(id));
  }

  /** After a failed CreateSubscription a later poll tries again with the stored token, without asking for another. */
  lemma FailedCreateIsRetried(s: State, t: Thread, id: FlowId, u: Thread, now: int) returns (s': State)
    requires t in s.threads && s.threads[t] == Undoing(id)
    requires id in s.table.flows && s.table.flows[id].data.token.Some? && !Expired(s.table.flows[id], now)
    requires u !in s.threads && u !in s.table.held && now <= s.clock
    ensures Runs.Exec(Step, s, [UndoLocked(t), PollLocked(u, id, s.table.flows[id].owner, now), FinishLocked(u)]) == Some(s')
    ensures u in s'.threads && s'.threads[u] == Creating(id, s.table.flows[id].data.token.value)
  {
    var s1 := UndoStep(s, t).value;
    var s2 := PollFinishes(s1, u, id, now);
    s' := FinishStep(s2, u).value;
    Runs.Sequence(Step, s, [UndoLocked(t), PollLocked(u, id, s.table.flows[id].owner, now), FinishLocked(u)], [s, s1, s2, s']);
  }

  /** At most twenty pending logins; each client is held by one thread, owned by one flow, or closed once. */
  lemma ClientsAccountedFor(clock: int, run: seq<Event>, s: State, c: Client)
    requires Reaches(clock, run, s) && c in s.table.closes
    ensures |s.table.flows| <= 20 && s.table.closes[c] <= 1
    ensures s.table.closes[c] == 0 <==>
            || (exists a :: a in s.table.held && s.table.held[a] == c)
            || (exists i :: i in s.table.flows && s.table.flows[i].client == c)
    ensures forall i, j :: i in s.table.flows && j in s.table.flows && s.table.flows[i].client == c == s.table.flows[j].client ==> i == j
    ensures forall a, i :: a in s.table.held && i in s.table.flows && s.table.held[a] == c ==> s.table.flows[i].client != c
  {
    RunKeepsInv(Init(clock), run);
    ClientAccountedFor(s.table, c);
  }
}

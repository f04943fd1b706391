/**
 The Grok device-login handlers as the code that runs, each locked section one method, with any
 interference by other handlers between the sections. Every call is a run of the machine in
 module DeviceFlow.
 */
module DeviceLogins {
  import opened Prelude
  import opened FlowTable
  import opened DeviceFlow
  import Runs

  /** The handler's answer to its caller. */
  datatype Reply =
    | FlowNotFound | StillPending | Finalizing | NotReady | CreateFailed | Complete(token: string)
    | OAuthUnavailable | InvalidResponse | AccessDenied | DeviceExpired | Rejected

  /** In seconds. */
  const MAX_DEVICE_CODE_TTL := 86400

  /** The parts of the device endpoint's answer that steer a login. */
  datatype Device = Device(expiresIn: int, interval: int)

  predicate IsBy(e: Event, t: Thread) { !e.Tick? && !e.ShutdownLocked? && e.t == t }

  /** Where a thread stands, the client it holds and the accounts created: no other thread's action changes these. */
  ghost predicate StandsAt(s: State, t: Thread, pc: Option<Pc>, client: Option<Client>, was: seq<(FlowId, string)>) {
    && (if t in s.threads then Some(s.threads[t]) else None) == pc
    && (if t in s.table.held then Some(s.table.held[t]) else None) == client
    && was <= s.created
  }

  lemma StartLeavesThread(s: State, e: Event, t: Thread, pc: Option<Pc>, client: Option<Client>, was: seq<(FlowId, string)>)
    requires e.StartLocked? && StartStep(s, e).Some? && !IsBy(e, t) && StandsAt(s, t, pc, client, was)
    ensures StandsAt(StartStep(s, e).value, t, pc, client, was)
  {
  }

  lemma PollLeavesThread(s: State, e: Event, t: Thread, pc: Option<Pc>, client: Option<Client>, was: seq<(FlowId, string)>)
    requires e.PollLocked? && Step(s, e).Some? && !IsBy(e, t) && StandsAt(s, t, pc, client, was)
    ensures StandsAt(Step(s, e).value, t, pc, client, was)
  {
  }

  lemma OtherLeavesThread(s: State, e: Event, t: Thread, pc: Option<Pc>, client: Option<Client>, was: seq<(FlowId, string)>)
    requires Step(s, e).Some? && !IsBy(e, t) && StandsAt(s, t, pc, client, was)
    ensures StandsAt(Step(s, e).value, t, pc, client, was)
  {
    if e.StartLocked? { StartLeavesThread(s, e, t, pc, client, was); }
    else if e.PollLocked? { PollLeavesThread(s, e, t, pc, client, was); }
    else if e.Answered? || e.SlowDownLocked? || e.FinishLocked? || e.UndoLocked? { DataLeavesThread(s, e, t, pc, client, was); }
  }

  /** The sections that change a flow's data only. */
  lemma DataLeavesThread(s: State, e: Event, t: Thread, pc: Option<Pc>, client: Option<Client>, was: seq<(FlowId, string)>)
    requires e.Answered? || e.SlowDownLocked? || e.FinishLocked? || e.UndoLocked?
    requires Step(s, e).Some? && !IsBy(e, t) && StandsAt(s, t, pc, client, was)
    ensures StandsAt(Step(s, e).value, t, pc, client, was)
  {
  }

  lemma OthersLeaveThread(s: State, t: Thread, pc: Option<Pc>, client: Option<Client>, es: seq<Event>)
    requires StandsAt(s, t, pc, client, s.created)
    ensures StandsAt(Runs.Interleave(Step, e => IsBy(e, t), s, es), t, pc, client, s.created)
  {
    var inv := p => StandsAt(p, t, pc, client, s.created);
    forall p, e | inv(p) && !IsBy(e, t) && Step(p, e).Some? ensures inv(Step(p, e).value) {
      OtherLeavesThread(p, e, t, pc, client, s.created);
    }
    Runs.InterleaveKeeps(Step, e => IsBy(e, t), inv, s, es);
  }

  /** A login as it is filed: not polled yet, to be polled one interval from now. */
  function NewLogin(owner: string, expiresAt: int, c: Client, now: int, interval: int): Flow<GrokData> {
    Flow(owner, expiresAt, c, GrokData(now + interval, interval, false, false, None))
  }

  /** The login a valid answer of the device endpoint starts: it expires when that says, counted from `now`. */
  function Started(owner: string, c: Client, device: Device, now: int): Flow<GrokData> {
    NewLogin(owner, now + device.expiresIn * 1_000_000_000, c, now, StartInterval(device.interval))
  }

  predicate Usable(device: Option<Device>) { device.Some? && 0 < device.value.expiresIn <= 86400 }

  // ---- A poll in one piece ----

  /** The caller's own pending login that has not expired. */
  predicate IsPending(flows: map<FlowId, Flow<GrokData>>, id: FlowId, owner: string, now: int) {
    id in flows && now < flows[id].expiresAt && flows[id].owner == owner
  }

  /** What a poll answers without asking anybody; None when it goes on. */
  function Early(flows: map<FlowId, Flow<GrokData>>, id: FlowId, owner: string, now: int): Option<Reply> {
    if !IsPending(flows, id, owner, now) then Some(FlowNotFound)
    else if flows[id].data.token.None? && (flows[id].data.polling || now < flows[id].data.nextPollAt) then Some(StillPending)
    else None
  }

  /** A login a token request is out for. */
  function Asked(f: Flow<GrokData>, now: int): Flow<GrokData> {
    f.(data := f.data.(polling := true, nextPollAt := now + f.data.interval))
  }

  /** A login whose request was answered. */
  function Heard(f: Flow<GrokData>, answer: Answer): Flow<GrokData> {
    f.(data := f.data.(polling := false, token := if answer.Token? then Some(answer.access) else f.data.token))
  }

  /** A login told to slow down: five seconds more, thirty at most, from `clock` on. */
  function Slowed(f: Flow<GrokData>, clock: int): Flow<GrokData> {
    var interval := if f.data.interval > 25_000_000_000 then 30_000_000_000 else f.data.interval + 5_000_000_000;
    f.(data := f.data.(interval := interval, nextPollAt := clock + interval))
  }

  function SetFinalizing(f: Flow<GrokData>, finalizing: bool): Flow<GrokData> { f.(data := f.data.(finalizing := finalizing)) }

  /** The end of a poll: the answer to the caller, and the login unless it is gone. */
  datatype End = End(reply: Reply, login: Option<Flow<GrokData>>)

  /** finishGrokOAuthFlow in one piece. */
  function Finished(f: Flow<GrokData>, createOk: bool): End {
    if f.data.token.None? then End(NotReady, Some(f))
    else if f.data.finalizing then End(Finalizing, Some(f))
    else if createOk then End(Complete(f.data.token.value), None)
    else End(CreateFailed, Some(f))
  }

  /** What the caller hears of an answer without a token. */
  function Said(answer: Answer): Reply {
    if answer.Unreachable? then OAuthUnavailable
    else if answer.EmptyToken? then InvalidResponse
    else if answer.Denied? then AccessDenied
    else if answer.ExpiredToken? then DeviceExpired
    else if answer.OtherError? then Rejected
    else StillPending
  }

  /** What finishGrokOAuthFlow may answer. */
  predicate Finishes(reply: Reply, createOk: bool) {
    reply == NotReady || reply == Finalizing || (if createOk then reply.Complete? else reply == CreateFailed)
  }

  /** A poll in one piece from the token endpoint's answer on, for a login that has heard it. */
  function Ended(f: Flow<GrokData>, clock: int, answer: Answer, createOk: bool): End {
    if answer.Token? then Finished(f, createOk)
    else if answer.Denied? || answer.ExpiredToken? then End(Said(answer), None)
    else if answer.SlowDownAnswer? then End(StillPending, Some(Slowed(f, clock)))
    else End(Said(answer), Some(f))
  }

  /** A poll in one piece for a pending login it does not answer early. */
  function Polled(f: Flow<GrokData>, now: int, clock: int, answer: Answer, createOk: bool): End {
    if f.data.token.Some? then Finished(f, createOk) else Ended(Heard(Asked(f, now), answer), clock, answer, createOk)
  }

  /** The login once its account is created, or not. */
  function Settled(flows: map<FlowId, Flow<GrokData>>, id: FlowId, created: bool): map<FlowId, Flow<GrokData>> {
    if created then flows - {id} else if id in flows then flows[id := SetFinalizing(flows[id], false)] else flows
  }

  function Update(flows: map<FlowId, Flow<GrokData>>, id: FlowId, login: Option<Flow<GrokData>>): map<FlowId, Flow<GrokData>> {
    if id !in flows then flows else if login.Some? then flows[id := login.value] else flows - {id}
  }

  /** A finish leaves the login as it was, unless it took it up and the account was created. */
  lemma FinishedUpdate(flows: map<FlowId, Flow<GrokData>>, id: FlowId, createOk: bool, flows': map<FlowId, Flow<GrokData>>)
    requires id in flows
    requires flows' == if flows[id].data.token.None? || flows[id].data.finalizing then flows
                       else Settled(flows[id := SetFinalizing(flows[id], true)], id, createOk)
    ensures flows' == Update(flows, id, Finished(flows[id], createOk).login)
  {
    var end := Finished(flows[id], createOk).login;
    if end.None? {
      assert flows[id := SetFinalizing(flows[id], true)] - {id} == flows - {id};
    } else {
      assert flows[id := flows[id]] == flows;
      assert flows' == flows;
    }
  }

  /** The logins after an answer without a token. */
  function Refused(flows: map<FlowId, Flow<GrokData>>, id: FlowId, clock: int, answer: Answer): map<FlowId, Flow<GrokData>> {
    if answer.Denied? || answer.ExpiredToken? then flows - {id}
    else if answer.SlowDownAnswer? && id in flows then flows[id := Slowed(flows[id], clock)]
    else flows
  }

  lemma RefusedUpdate(flows: map<FlowId, Flow<GrokData>>, id: FlowId, clock: int, answer: Answer)
    requires id in flows && !answer.Token?
    ensures Refused(flows, id, clock, answer) == Update(flows, id, Ended(flows[id], clock, answer, true).login)
    ensures Ended(flows[id], clock, answer, true) == Ended(flows[id], clock, answer, false)
  {
    assert flows[id := flows[id]] == flows;
  }

  lemma UpdateTwice(flows: map<FlowId, Flow<GrokData>>, id: FlowId, f: Flow<GrokData>, login: Option<Flow<GrokData>>)
    requires id in flows
    ensures Update(flows[id := f], id, login) == Update(flows, id, login)
  {
    if login.None? { assert flows[id := f] - {id} == flows - {id}; }
  }

  /** The logins after a poll: the expired ones are gone, and this one is as the poll left it. */
  ghost predicate Leaves(flows: map<FlowId, Flow<GrokData>>, flows': map<FlowId, Flow<GrokData>>, now: int, id: FlowId, login: Option<Flow<GrokData>>) {
    if login.None? then GoneToo(flows, flows', now, id)
    else OnlyExpiredGone(flows, flows', now, {id}) && id in flows' && flows'[id] == login.value
  }

  lemma LeavesUpdated(flows: map<FlowId, Flow<GrokData>>, cleaned: map<FlowId, Flow<GrokData>>, now: int, id: FlowId, login: Option<Flow<GrokData>>)
    requires OnlyExpiredGone(flows, cleaned, now, {id}) && id in cleaned
    ensures Leaves(flows, Update(cleaned, id, login), now, id, login)
  {
    ThenGone(flows, cleaned, now, id);
  }

  predicate EndsAs(end: End, id: FlowId, flows: map<FlowId, Flow<GrokData>>, flows': map<FlowId, Flow<GrokData>>, reply: Reply) {
    reply == end.reply && flows' == Update(flows, id, end.login)
  }

  lemma EarlyAfterCleanup(flows: map<FlowId, Flow<GrokData>>, cleaned: map<FlowId, Flow<GrokData>>, id: FlowId, owner: string, now: int)
    requires OnlyExpiredGone(flows, cleaned, now, {})
    ensures Early(cleaned, id, owner, now) == Early(flows, id, owner, now)
  {
  }

  class Logins {
    var table: Table<GrokData>
    var threads: map<Thread, Pc>
    var clock: int
    var requests: seq<Request>
    var stored: set<(FlowId, string)>
    var created: seq<(FlowId, string)>
    var pollers: map<FlowId, Thread>
    var claims: map<FlowId, Thread>

    function Abs(): State
      reads this
    {
      State(table, threads, clock, requests, stored, created, pollers, claims)
    }

    constructor (clock: int)
      ensures Abs() == Init(clock)
    {
      this.clock := clock;
      table, threads, requests, stored, created := Table(map[], map[], map[], {}, map[]), map[], [], {}, [];
      pollers, claims := map[], map[];
    }

    method Become(s: State)
      modifies this
      ensures Abs() == s
    {
      table, threads, clock, requests, stored := s.table, s.threads, s.clock, s.requests, s.stored;
      created, pollers, claims := s.created, s.pollers, s.claims;
    }

    /** Lets other handlers act. */
    method Yield(t: Thread, es: seq<Event>, ghost s0: State, ghost before: seq<Event>) returns (ghost run: seq<Event>)
      requires Runs.Exec(Step, s0, before) == Some(Abs())
      modifies this
      ensures Runs.Exec(Step, s0, run) == Some(Abs())
      ensures old(t in threads) ==> t in threads && threads[t] == old(threads[t])
      ensures old(t in table.held) ==> t in table.held && table.held[t] == old(table.held[t])
      ensures old(t !in table.held) ==> t !in table.held
      ensures old(created) <= created && (es == [] ==> Abs() == old(Abs()))
    {
      OthersLeaveThread(Abs(), t, if t in threads then Some(threads[t]) else None,
                        if t in table.held then Some(table.held[t]) else None, es);
      run := Runs.InterleaveRun(Step, e => IsBy(e, t), Abs(), es);
      Runs.ExecAppend(Step, s0, before, run);
      run := before + run;
      Become(Runs.Interleave(Step, e => IsBy(e, t), Abs(), es));
    }

    /** bindOAuthSubscriptionRequest builds the login's client, which the handler holds. */
    method BindClient(t: Thread, c: Client)
      requires t !in threads && t !in table.held && c !in table.closes
      modifies this
      ensures Step(old(Abs()), BuildClient(t, c)) == Some(Abs())
      ensures t in threads && threads[t] == Starting && t in table.held && table.held[t] == c
      ensures table.flows == old(table.flows) && clock == old(clock)
    {
      table := Build(table, t, c);
      threads := threads[t := Starting];
    }

    /** Every early return of startGrokOAuthDevice closes the client. */
    method AbandonStart(t: Thread)
      requires t in threads && threads[t].Starting? && t in table.held && table.held[t] in table.closes
      modifies this
      ensures Step(old(Abs()), StartFailed(t)) == Some(Abs())
      ensures t in threads && threads[t] == Done && t !in table.held
    {
      table := CloseHeld(table, t);
      threads := threads[t := Done];
    }

    /** Closing the server: every pending login goes, and its client is closed. */
    method CloseAll()
      requires TableInv(table)
      modifies this`table
      ensures Step(old(Abs()), ShutdownLocked) == Some(Abs())
      ensures TableInv(table) && table.flows == map[]
    {
      table := FlowTable.ShutdownLocked(table);
    }

    /** The interval a flow starts with. */
    method ClampInterval(seconds: int) returns (interval: int)
      ensures interval == StartInterval(seconds) && SECOND <= interval <= 30 * SECOND
    {
      interval := Seconds(seconds);
      if interval < SECOND { interval := 5 * SECOND; }
      if interval > 30 * SECOND { interval := 30 * SECOND; }
    }

    /** The locked section of startGrokOAuthDevice, from its capacity check on. */
    method FileUnlessFull(t: Thread, id: FlowId, owner: string, expiresAt: int, now: int, interval: int)
      returns (atCapacity: bool)
      requires t in table.held
      modifies this
      ensures Abs() == StartClean(old(Abs()), t, id, owner, expiresAt, now, interval)
      ensures t in threads && threads[t] == (if atCapacity then Closing else Done) && (atCapacity <==> t in table.held)
      ensures clock == old(clock) && (atCapacity <==> |old(table.flows)| >= 20)
      ensures !atCapacity ==> id in table.flows && table.flows[id] == NewLogin(owner, expiresAt, old(table.held[t]), now, interval)
    {
      atCapacity := |table.flows| >= MAX_PENDING;
      if atCapacity {
        threads := threads[t := Closing];
      } else {
        table := File(table, t, id, owner, expiresAt, GrokData(now + interval, interval, false, false, None));
        threads := threads[t := Done];
      }
    }

    /** The locked section of startGrokOAuthDevice. */
    method FileLocked(t: Thread, id: FlowId, owner: string, expiresAt: int, interval: int, now: int)
      returns (atCapacity: bool, ghost pending: set<FlowId>)
      requires TableInv(table) && t in threads && threads[t].Starting? && t in table.held && id !in table.used
      requires now <= clock && SECOND <= interval <= 30 * SECOND
      modifies this
      ensures StartStep(old(Abs()), StartLocked(t, id, owner, expiresAt, interval, now)) == Some(Abs())
      ensures t in threads && threads[t] == (if atCapacity then Closing else Done) && (atCapacity <==> t in table.held)
      ensures clock == old(clock) && Unexpired(pending, old(table.flows), now) && (atCapacity <==> |pending| >= 20)
      ensures !atCapacity ==> id in table.flows && table.flows[id] == NewLogin(owner, expiresAt, old(table.held[t]), now, interval)
    {
      pending := CleanedSize(table, now);
      table := CleanupLocked(table, now);
      atCapacity := FileUnlessFull(t, id, owner, expiresAt, now, interval);
    }

    /** The first locked section of pollGrokOAuthDevice, after its cleanup. */
    method LookUp(t: Thread, id: FlowId, owner: string, now: int) returns (reply: Option<Reply>)
      requires t !in table.held && forall i :: i in table.flows ==> now < table.flows[i].expiresAt
      modifies this
      ensures Abs() == PollClean(old(Abs()), t, id, owner, now)
      ensures t in threads && t !in table.held
      ensures reply == Early(old(table.flows), id, owner, now) && created == old(created) && clock == old(clock)
      ensures reply.Some? ==> table.flows == old(table.flows) && requests == old(requests)
      ensures reply.None? ==>
                && id in old(table.flows) && id in table.flows
                && threads[t] == (if old(table.flows)[id].data.token.Some? then Finishing(id) else Requesting(id))
                && table.flows == (if threads[t].Finishing? then old(table.flows) else old(table.flows)[id := Asked(old(table.flows)[id], now)])
                && requests == if threads[t].Finishing? then old(requests)
                               else old(requests) + [Request(id, now, old(table.flows)[id].data.interval)]
      ensures if reply.Some? then threads[t] == Done && !reply.value.Complete?
              else threads[t] == Requesting(id) || threads[t] == Finishing(id)
    {
      if id !in table.flows || table.flows[id].owner != owner {
        threads := threads[t := Done];
        return Some(FlowNotFound);
      }
      var data := table.flows[id].data;
      if data.token.Some? {
        threads := threads[t := Finishing(id)];
        return None;
      }
      if data.polling || now < data.nextPollAt {
        threads := threads[t := Done];
        return Some(StillPending);
      }
      table := SetData(table, id, data.(polling := true, nextPollAt := now + data.interval));
      threads, pollers := threads[t := Requesting(id)], pollers[id := t];
      requests := requests + [Request(id, now, data.interval)];
      reply := None;
    }

    /** The first locked section of pollGrokOAuthDevice; `reply` when it answers without going on. */
    method PollSection(t: Thread, id: FlowId, owner: string, now: int) returns (reply: Option<Reply>)
      requires TableInv(table) && t !in threads && t !in table.held && now <= clock
      modifies this
      ensures PollStep(old(Abs()), t, id, owner, now) == Some(Abs())
      ensures t in threads && t !in table.held
      ensures reply == Early(old(table.flows), id, owner, now) && created == old(created) && clock == old(clock)
      ensures reply.Some? ==> OnlyExpiredGone(old(table.flows), table.flows, now, {}) && requests == old(requests)
      ensures reply.None? ==>
                && id in old(table.flows) && id in table.flows
                && threads[t] == (if old(table.flows)[id].data.token.Some? then Finishing(id) else Requesting(id))
                && table.flows[id] == (if threads[t].Finishing? then old(table.flows)[id] else Asked(old(table.flows)[id], now))
                && OnlyExpiredGone(old(table.flows), table.flows, now, {id})
                && requests == if threads[t].Finishing? then old(requests)
                               else old(requests) + [Request(id, now, old(table.flows)[id].data.interval)]
      ensures if reply.Some? then threads[t] == Done && !reply.value.Complete?
              else threads[t] == Requesting(id) || threads[t] == Finishing(id)
    {
      ghost var was := table;
      table := CleanupLocked(table, now);
      CleanedUp(was, table, now);
      EarlyAfterCleanup(was.flows, table.flows, id, owner, now);
      ghost var cleaned := table.flows;
      reply := LookUp(t, id, owner, now);
      if reply.None? { ThenChanged(was.flows, cleaned, now, id, table.flows[id]); }
    }

    /** The locked section after the token endpoint answered. */
    method AnswerSection(t: Thread, id: FlowId, answer: Answer)
      requires t in threads && threads[t] == Requesting(id) && (answer.Token? ==> answer.access != "")
      modifies this
      ensures Step(old(Abs()), Answered(t, answer)) == Some(Abs())
      ensures t in threads && threads[t] == AfterAnswer(answer, id) && table.held == old(table.held) && created == old(created)
      ensures clock == old(clock) && table.flows ==
                if id in old(table.flows) then old(table.flows)[id := Heard(old(table.flows)[id], answer)] else old(table.flows)
    {
      if id in table.flows {
        var data := table.flows[id].data.(polling := false);
        if answer.Token? {
          data := data.(token := Some(answer.access));
          stored := stored + {(id, answer.access)};
        }
        table := SetData(table, id, data);
      }
      threads := threads[t := AfterAnswer(answer, id)];
    }

    /** The locked section of the slow_down case. */
    method SlowDownSection(t: Thread, id: FlowId)
      requires t in threads && threads[t] == SlowingDown(id)
      modifies this
      ensures Step(old(Abs()), SlowDownLocked(t)) == Some(Abs())
      ensures t in threads && threads[t] == Done && table.held == old(table.held) && created == old(created)
      ensures table.flows ==
                if id in old(table.flows) then old(table.flows)[id := Slowed(old(table.flows)[id], old(clock))] else old(table.flows)
    {
      if id in table.flows {
        var data := table.flows[id].data;
        var interval := data.interval + 5 * SECOND;
        if interval > 30 * SECOND { interval := 30 * SECOND; }
        table := SetData(table, id, data.(interval := interval, nextPollAt := clock + interval));
      }
      threads := threads[t := Done];
    }

    /** The first locked section of finishGrokOAuthFlow. */
    method FinishSection(t: Thread, id: FlowId) returns (reply: Option<Reply>)
      requires t in threads && threads[t] == Finishing(id)
      modifies this
      ensures Step(old(Abs()), FinishLocked(t)) == Some(Abs())
      ensures t in threads && table.held == old(table.held) && created == old(created)
      ensures reply == if id !in old(table.flows) || old(table.flows)[id].data.token.None? then Some(NotReady)
                       else if old(table.flows)[id].data.finalizing then Some(Finalizing) else None
      ensures reply.Some? ==> table.flows == old(table.flows)
      ensures reply.None? ==>
                && table.flows == old(table.flows)[id := SetFinalizing(old(table.flows)[id], true)]
                && threads[t] == Creating(id, old(table.flows)[id].data.token.value)
      ensures if reply.Some? then threads[t] == Done && !reply.value.Complete? else threads[t].Creating? && threads[t].id == id
    {
      if id !in table.flows || table.flows[id].data.token.None? {
        threads := threads[t := Done];
        return Some(NotReady);
      }
      var data := table.flows[id].data;
      if data.finalizing {
        threads := threads[t := Done];
        return Some(Finalizing);
      }
      table := SetData(table, id, data.(finalizing := true));
      threads, claims := threads[t := Creating(id, data.token.value)], claims[id := t];
      reply := None;
    }

    /** repo.CreateSubscription, which succeeds or does nothing. */
    method Create(t: Thread, ok: bool)
      requires t in threads && threads[t].Creating?
      modifies this
      ensures Step(old(Abs()), CreateSubscription(t, ok)) == Some(Abs())
      ensures t in threads && threads[t] == if ok then Created(old(threads[t].id)) else Undoing(old(threads[t].id))
      ensures table == old(table) && created == old(created) + if ok then [(old(threads[t].id), old(threads[t].token))] else []
    {
      var pc := threads[t];
      if ok {
        created, threads := created + [(pc.id, pc.token)], threads[t := Created(pc.id)];
      } else {
        threads := threads[t := Undoing(pc.id)];
      }
    }

    /** The locked section after a failed creation. */
    method UndoSection(t: Thread, id: FlowId)
      requires t in threads && threads[t] == Undoing(id)
      modifies this
      ensures Step(old(Abs()), UndoLocked(t)) == Some(Abs())
      ensures t in threads && threads[t] == Done && table.held == old(table.held) && created == old(created)
      ensures table.flows ==
                if id in old(table.flows) then old(table.flows)[id := SetFinalizing(old(table.flows)[id], false)] else old(table.flows)
    {
      if id in table.flows {
        table := SetData(table, id, table.flows[id].data.(finalizing := false));
      }
      threads := threads[t := Done];
    }

    /** The locked section of removeGrokOAuthFlow. */
    method RemoveSection(t: Thread, id: FlowId) returns (found: bool)
      requires t in threads && (threads[t] == Removing(id) || threads[t] == Created(id)) && t !in table.held
      modifies this
      ensures Step(old(Abs()), RemoveLocked(t)) == Some(Abs())
      ensures found == (id in old(table.flows)) && id !in table.flows
      ensures table.flows == old(table.flows) - {id}
      ensures t in threads && threads[t] == if found then Closing else Done
      ensures (found <==> t in table.held) && created == old(created)
    {
      found := id in table.flows;
      table := Remove(table, t, id);
      threads := threads[t := if found then Closing else Done];
    }

    /** closeHTTPClient on the client the thread holds. */
    method CloseClientOf(t: Thread)
      requires t in threads && threads[t].Closing? && t in table.held && table.held[t] in table.closes
      modifies this
      ensures Step(old(Abs()), CloseClient(t)) == Some(Abs())
      ensures t in threads && threads[t] == Done && t !in table.held && created == old(created) && table.flows == old(table.flows)
    {
      table := CloseHeld(table, t);
      threads := threads[t := Done];
    }

    /** Lets others act and then closes the client. */
    method YieldAndClose(t: Thread, es: seq<Event>, ghost s0: State, ghost before: seq<Event>) returns (ghost run: seq<Event>)
      requires Inv(s0) && Runs.Exec(Step, s0, before) == Some(Abs())
      requires t in threads && threads[t].Closing? && t in table.held
      modifies this
      ensures Runs.Exec(Step, s0, run) == Some(Abs()) && t in threads && threads[t] == Done && t !in table.held
      ensures old(created) <= created && (es == [] ==> created == old(created) && table.flows == old(table.flows))
    {
      run := Yield(t, es, s0, before);
      run := CloseAfter(t, s0, run);
    }

    /** removeGrokOAuthFlow */
    method RemoveFlow(t: Thread, id: FlowId, others: int -> seq<Event>, ghost s0: State, ghost before: seq<Event>)
      returns (ghost run: seq<Event>)
      requires Inv(s0) && Runs.Exec(Step, s0, before) == Some(Abs())
      requires t in threads && (threads[t] == Removing(id) || threads[t] == Created(id)) && t !in table.held
      modifies this
      ensures Runs.Exec(Step, s0, run) == Some(Abs()) && t in threads && threads[t] == Done && t !in table.held
      ensures old(created) <= created
      ensures Runs.Undisturbed(others) ==> created == old(created) && table.flows == old(table.flows) - {id}
    {
      ghost var s := Abs();
      var found := RemoveSection(t, id);
      run := Runs.Extended(Step, s0, before, s, RemoveLocked(t), Abs());
      if found {
        run := YieldAndClose(t, others(8), s0, run);
      }
    }

    method CloseAfter(t: Thread, ghost s0: State, ghost before: seq<Event>) returns (ghost run: seq<Event>)
      requires Inv(s0) && Runs.Exec(Step, s0, before) == Some(Abs())
      requires t in threads && threads[t].Closing? && t in table.held
      modifies this
      ensures Runs.Exec(Step, s0, run) == Some(Abs()) && t in threads && threads[t] == Done && t !in table.held
      ensures created == old(created) && table.flows == old(table.flows)
    {
      ghost var s := Abs();
      RunKeepsInv(s0, before);
      CloseClientOf(t);
      run := Runs.Extended(Step, s0, before, s, CloseClient(t), Abs());
    }

    /** The call of CreateSubscription, and what gets in after it. */
    method CreateAndYield(t: Thread, createOk: bool, es: seq<Event>, ghost s0: State, ghost before: seq<Event>)
      returns (token: string, ghost run: seq<Event>)
      requires Runs.Exec(Step, s0, before) == Some(Abs())
      requires t in threads && threads[t].Creating? && t !in table.held
      modifies this
      ensures Runs.Exec(Step, s0, run) == Some(Abs()) && t in threads && t !in table.held
      ensures threads[t] == if createOk then Created(old(threads[t].id)) else Undoing(old(threads[t].id))
      ensures token == old(threads[t].token)
      ensures es == [] ==> table == old(table) && created == old(created) + if createOk then [(old(threads[t].id), token)] else []
      ensures createOk ==> (old(threads[t].id), token) in created
    {
      ghost var s := Abs();
      token := threads[t].token;
      ghost var id := threads[t].id;
      Create(t, createOk);
      assert createOk ==> created[|created| - 1] == (id, token);
      ghost var was := created;
      run := Runs.Extended(Step, s0, before, s, CreateSubscription(t, createOk), Abs());
      run := Yield(t, es, s0, run);
      assert createOk ==> created[|was| - 1] == (id, token);
    }

    /** finishGrokOAuthFlow from the call of CreateSubscription on. */
    method CreateAccount(t: Thread, id: FlowId, createOk: bool, others: int -> seq<Event>, ghost s0: State, ghost before: seq<Event>)
      returns (reply: Reply, ghost run: seq<Event>)
      requires Inv(s0) && Runs.Exec(Step, s0, before) == Some(Abs())
      requires t in threads && threads[t].Creating? && threads[t].id == id && t !in table.held
      modifies this
      ensures Runs.Exec(Step, s0, run) == Some(Abs()) && t in threads && threads[t] == Done && t !in table.held
      ensures reply == if createOk then Complete(old(threads[t].token)) else CreateFailed
      ensures reply.Complete? ==> (id, reply.token) in created
      ensures Runs.Undisturbed(others) ==>
                && created == old(created) + (if createOk then [(id, old(threads[t].token))] else [])
                && table.flows == Settled(old(table.flows), id, createOk)
    {
      var token;
      run := Yield(t, others(4), s0, before);
      token, run := CreateAndYield(t, createOk, others(5), s0, run);
      if createOk {
        ghost var was := created;
        run := RemoveFlow(t, id, others, s0, run);
        assert (id, token) in was && was <= created;
        reply := Complete(token);
      } else {
        run := UndoAfter(t, id, s0, run);
        reply := CreateFailed;
      }
    }

    method UndoAfter(t: Thread, id: FlowId, ghost s0: State, ghost before: seq<Event>) returns (ghost run: seq<Event>)
      requires Runs.Exec(Step, s0, before) == Some(Abs()) && t in threads && threads[t] == Undoing(id) && t !in table.held
      modifies this
      ensures Runs.Exec(Step, s0, run) == Some(Abs()) && t in threads && threads[t] == Done && t !in table.held
      ensures created == old(created) && table.flows ==
                if id in old(table.flows) then old(table.flows)[id := SetFinalizing(old(table.flows)[id], false)] else old(table.flows)
    {
      ghost var s := Abs();
      UndoSection(t, id);
      run := Runs.Extended(Step, s0, before, s, UndoLocked(t), Abs());
    }

    /** finishGrokOAuthFlow */
    method FinishFlow(t: Thread, id: FlowId, createOk: bool, others: int -> seq<Event>, ghost s0: State, ghost before: seq<Event>)
      returns (reply: Reply, ghost run: seq<Event>)
      requires Inv(s0) && Runs.Exec(Step, s0, before) == Some(Abs())
      requires t in threads && threads[t] == Finishing(id) && t !in table.held
      modifies this
      ensures Runs.Exec(Step, s0, run) == Some(Abs()) && t in threads && threads[t] == Done && t !in table.held
      ensures reply == if id in old(table.flows) then Finished(old(table.flows)[id], createOk).reply else NotReady
      ensures Runs.Undisturbed(others) && id in old(table.flows) ==>
                && table.flows == Update(old(table.flows), id, Finished(old(table.flows)[id], createOk).login)
      ensures Runs.Undisturbed(others) ==> created == old(created) + (if reply.Complete? then [(id, reply.token)] else [])
      ensures reply.Complete? ==> (id, reply.token) in created
    {
      ghost var s := Abs();
      var early := FinishSection(t, id);
      run := Runs.Extended(Step, s0, before, s, FinishLocked(t), Abs());
      if early.Some? {
        reply := early.value;
      } else {
        reply, run := CreateAccount(t, id, createOk, others, s0, run);
      }
      if Runs.Undisturbed(others) && id in s.table.flows { FinishedUpdate(s.table.flows, id, createOk, table.flows); }
    }

    /** pollGrokOAuthDevice from the token endpoint's answer on. */
    method TakeAnswer(t: Thread, id: FlowId, answer: Answer, createOk: bool, others: int -> seq<Event>, ghost s0: State, ghost before: seq<Event>)
      returns (reply: Reply, ghost run: seq<Event>)
      requires Inv(s0) && Runs.Exec(Step, s0, before) == Some(Abs())
      requires t in threads && threads[t] == Requesting(id) && t !in table.held && (answer.Token? ==> answer.access != "")
      modifies this
      ensures Runs.Exec(Step, s0, run) == Some(Abs()) && t in threads && threads[t] == Done && t !in table.held
      ensures if answer.Token? then Finishes(reply, createOk) else reply == Said(answer)
      ensures Runs.Undisturbed(others) && id in old(table.flows) ==>
                EndsAs(Ended(Heard(old(table.flows)[id], answer), old(clock), answer, createOk), id, old(table.flows), table.flows, reply)
      ensures Runs.Undisturbed(others) ==> created == old(created) + (if reply.Complete? then [(id, reply.token)] else [])
      ensures reply.Complete? ==> (id, reply.token) in created
    {
      ghost var s := Abs();
      AnswerSection(t, id, answer);
      run := Runs.Extended(Step, s0, before, s, Answered(t, answer), Abs());
      run := Yield(t, others(2), s0, run);
      if id in s.table.flows {
        UpdateTwice(s.table.flows, id, Heard(s.table.flows[id], answer), Ended(Heard(s.table.flows[id], answer), s.clock, answer, createOk).login);
      }
      reply, run := AfterAnswerSection(t, id, answer, createOk, others, s0, run);
    }

    /** What a poll does once it has let go of the mutex with the answer in hand. */
    method AfterAnswerSection(t: Thread, id: FlowId, answer: Answer, createOk: bool, others: int -> seq<Event>, ghost s0: State, ghost before: seq<Event>)
      returns (reply: Reply, ghost run: seq<Event>)
      requires Inv(s0) && Runs.Exec(Step, s0, before) == Some(Abs())
      requires t in threads && threads[t] == AfterAnswer(answer, id) && t !in table.held
      modifies this
      ensures Runs.Exec(Step, s0, run) == Some(Abs()) && t in threads && threads[t] == Done && t !in table.held
      ensures if answer.Token? then Finishes(reply, createOk) else reply == Said(answer)
      ensures Runs.Undisturbed(others) && id in old(table.flows) ==>
                EndsAs(Ended(old(table.flows)[id], old(clock), answer, createOk), id, old(table.flows), table.flows, reply)
      ensures Runs.Undisturbed(others) ==> created == old(created) + (if reply.Complete? then [(id, reply.token)] else [])
      ensures reply.Complete? ==> (id, reply.token) in created
    {
      if answer.Token? {
        reply, run := FinishFlow(t, id, createOk, others, s0, before);
      } else {
        if id in table.flows { RefusedUpdate(table.flows, id, clock, answer); }
        reply, run := TakeRefusal(t, id, answer, others, s0, before);
      }
    }

    /** The answers without a token. */
    method TakeRefusal(t: Thread, id: FlowId, answer: Answer, others: int -> seq<Event>, ghost s0: State, ghost before: seq<Event>)
      returns (reply: Reply, ghost run: seq<Event>)
      requires Inv(s0) && Runs.Exec(Step, s0, before) == Some(Abs())
      requires !answer.Token? && t in threads && threads[t] == AfterAnswer(answer, id) && t !in table.held
      modifies this
      ensures Runs.Exec(Step, s0, run) == Some(Abs()) && t in threads && threads[t] == Done && t !in table.held
      ensures reply == Said(answer)
      ensures Runs.Undisturbed(others) ==>
                created == old(created) && table.flows == Refused(old(table.flows), id, old(clock), answer)
    {
      reply := ReplyTo(answer);
      if answer.SlowDownAnswer? {
        run := SlowDownAfter(t, id, s0, before);
      } else if answer.Denied? || answer.ExpiredToken? {
        run := RemoveFlow(t, id, others, s0, before);
      } else {
        run := before;
      }
    }

    method ReplyTo(answer: Answer) returns (reply: Reply)
      requires !answer.Token?
      ensures reply == Said(answer)
    {
      match answer {
        case SlowDownAnswer => reply := StillPending;
        case Denied => reply := AccessDenied;
        case ExpiredToken => reply := DeviceExpired;
        case Unreachable => reply := OAuthUnavailable;
        case EmptyToken => reply := InvalidResponse;
        case PendingAnswer => reply := StillPending;
        case OtherError => reply := Rejected;
      }
    }

    method SlowDownAfter(t: Thread, id: FlowId, ghost s0: State, ghost before: seq<Event>) returns (ghost run: seq<Event>)
      requires Runs.Exec(Step, s0, before) == Some(Abs()) && t in threads && threads[t] == SlowingDown(id) && t !in table.held
      modifies this
      ensures Runs.Exec(Step, s0, run) == Some(Abs()) && t in threads && threads[t] == Done && t !in table.held
      ensures created == old(created) && table.flows ==
                if id in old(table.flows) then old(table.flows)[id := Slowed(old(table.flows)[id], old(clock))] else old(table.flows)
    {
      ghost var s := Abs();
      SlowDownSection(t, id);
      run := Runs.Extended(Step, s0, before, s, SlowDownLocked(t), Abs());
    }

    /** The first locked section and all that follows it. */
    method PollSteps(t: Thread, id: FlowId, owner: string, now: int, answer: Answer, createOk: bool, others: int -> seq<Event>)
      returns (reply: Reply, ghost run: seq<Event>)
      requires Inv(Abs()) && t !in threads && t !in table.held && now <= clock && (answer.Token? ==> answer.access != "")
      modifies this
      ensures Runs.Exec(Step, old(Abs()), run) == Some(Abs())
      ensures t in threads && threads[t] == Done && t !in table.held
      ensures var early := Early(old(table.flows), id, owner, now);
              early.Some? ==> reply == early.value && created == old(created) && OnlyExpiredGone(old(table.flows), table.flows, now, {})
      ensures Early(old(table.flows), id, owner, now).None? ==>
                if old(table.flows)[id].data.token.Some? || answer.Token? then Finishes(reply, createOk) else reply == Said(answer)
      // when nobody interferes, a poll is what it would be in one piece
      ensures Runs.Undisturbed(others) && Early(old(table.flows), id, owner, now).None? ==>
                && Polled(old(table.flows)[id], now, old(clock), answer, createOk).reply == reply
                && Leaves(old(table.flows), table.flows, now, id, Polled(old(table.flows)[id], now, old(clock), answer, createOk).login)
                && created == old(created) + (if reply.Complete? then [(id, reply.token)] else [])
      ensures reply.Complete? ==> (id, reply.token) in created
    {
      ghost var s0 := Abs();
      var early := PollSection(t, id, owner, now);
      run := Runs.Extended(Step, s0, [], s0, PollLocked(t, id, owner, now), Abs());
      if early.Some? {
        reply := early.value;
      } else {
        LeavesUpdated(s0.table.flows, table.flows, now, id, Polled(s0.table.flows[id], now, s0.clock, answer, createOk).login);
        reply, run := PollOn(t, id, answer, createOk, others, s0, run);
      }
    }

    /**
     pollGrokOAuthDevice, run by thread `t`. `answer` and `createOk` are what the token endpoint and the
     database say if they are asked; `others` lists what other handlers do wherever they can get in.
     */
    method PollDevice(t: Thread, id: FlowId, owner: string, now: int, answer: Answer, createOk: bool, others: int -> seq<Event>)
      returns (reply: Reply, ghost run: seq<Event>)
      requires Inv(Abs()) && t !in threads && t !in table.held && now <= clock && (answer.Token? ==> answer.access != "")
      modifies this
      ensures Runs.Exec(Step, old(Abs()), run) == Some(Abs()) && Inv(Abs())
      ensures t in threads && threads[t] == Done && t !in table.held
      ensures var early := Early(old(table.flows), id, owner, now);
              early.Some? ==> reply == early.value && created == old(created) && OnlyExpiredGone(old(table.flows), table.flows, now, {})
      ensures Early(old(table.flows), id, owner, now).None? ==>
                if old(table.flows)[id].data.token.Some? || answer.Token? then Finishes(reply, createOk) else reply == Said(answer)
      // when nobody interferes, a poll is what it would be in one piece
      ensures Runs.Undisturbed(others) && Early(old(table.flows), id, owner, now).None? ==>
                && Polled(old(table.flows)[id], now, old(clock), answer, createOk).reply == reply
                && Leaves(old(table.flows), table.flows, now, id, Polled(old(table.flows)[id], now, old(clock), answer, createOk).login)
                && created == old(created) + (if reply.Complete? then [(id, reply.token)] else [])
      ensures reply.Complete? ==> (id, reply.token) in created && (id, reply.token) in stored
    {
      ghost var s0 := Abs();
      reply, run := PollSteps(t, id, owner, now, answer, createOk, others);
      RunKeepsInv(s0, run);
    }

    /** The poll after its first locked section. */
    method PollOn(t: Thread, id: FlowId, answer: Answer, createOk: bool, others: int -> seq<Event>, ghost s0: State, ghost before: seq<Event>)
      returns (reply: Reply, ghost run: seq<Event>)
      requires Inv(s0) && Runs.Exec(Step, s0, before) == Some(Abs())
      requires t in threads && (threads[t] == Requesting(id) || threads[t] == Finishing(id)) && t !in table.held
      requires answer.Token? ==> answer.access != ""
      modifies this
      ensures Runs.Exec(Step, s0, run) == Some(Abs()) && t in threads && threads[t] == Done && t !in table.held
      ensures if old(threads[t]).Finishing? || answer.Token? then Finishes(reply, createOk) else reply == Said(answer)
      ensures Runs.Undisturbed(others) && id in old(table.flows) ==>
                EndsAs(if old(threads[t]).Finishing? then Finished(old(table.flows)[id], createOk)
                       else Ended(Heard(old(table.flows)[id], answer), old(clock), answer, createOk), id, old(table.flows), table.flows, reply)
      ensures Runs.Undisturbed(others) ==> created == old(created) + (if reply.Complete? then [(id, reply.token)] else [])
      ensures reply.Complete? ==> (id, reply.token) in created
    {
      run := Yield(t, others(1), s0, before);
      if threads[t].Finishing? {
        reply, run := FinishFlow(t, id, createOk, others, s0, run);
      } else {
        reply, run := TakeAnswer(t, id, answer, createOk, others, s0, run);
      }
    }

    /** A start that fails after the client is built. */
    method FailStart(t: Thread, ghost s0: State, ghost before: seq<Event>) returns (ghost run: seq<Event>)
      requires Inv(Abs()) && Runs.Exec(Step, s0, before) == Some(Abs()) && t in threads && threads[t].Starting? && t in table.held
      modifies this
      ensures Runs.Exec(Step, s0, run) == Some(Abs()) && t in threads && threads[t] == Done && t !in table.held
    {
      ghost var s := Abs();
      AbandonStart(t);
      run := Runs.Extended(Step, s0, before, s, StartFailed(t), Abs());
    }

    /** The section as part of a run. */
    method FileAs(t: Thread, id: FlowId, owner: string, expiresAt: int, interval: int, now: int, ghost s0: State, ghost before: seq<Event>)
      returns (atCapacity: bool, ghost pending: set<FlowId>, ghost run: seq<Event>)
      requires TableInv(table) && Runs.Exec(Step, s0, before) == Some(Abs()) && id !in table.used
      requires t in threads && threads[t].Starting? && t in table.held && now <= clock && SECOND <= interval <= 30 * SECOND
      modifies this
      ensures Runs.Exec(Step, s0, run) == Some(Abs())
      ensures t in threads && threads[t] == (if atCapacity then Closing else Done) && (atCapacity <==> t in table.held)
      ensures clock == old(clock) && Unexpired(pending, old(table.flows), now) && (atCapacity <==> |pending| >= 20)
      ensures !atCapacity ==> id in table.flows && table.flows[id] == NewLogin(owner, expiresAt, old(table.held[t]), now, interval)
    {
      ghost var s := Abs();
      atCapacity, pending := FileLocked(t, id, owner, expiresAt, interval, now);
      run := Runs.Extended(Step, s0, before, s, StartLocked(t, id, owner, expiresAt, interval, now), Abs());
    }

    /** A flow with a new id, filed unless the map is full; `now` was read just before the mutex was taken. */
    method FileNew(t: Thread, owner: string, expiresAt: int, interval: int, now: int, ghost s0: State, ghost before: seq<Event>)
      returns (started: Option<FlowId>, ghost pending: set<FlowId>, ghost run: seq<Event>)
      requires TableInv(table) && Runs.Exec(Step, s0, before) == Some(Abs())
      requires t in threads && threads[t].Starting? && t in table.held && now <= clock && SECOND <= interval <= 30 * SECOND
      modifies this
      ensures Runs.Exec(Step, s0, run) == Some(Abs()) && t in threads
      ensures if started.Some? then threads[t] == Done && t !in table.held
                   && started.value in table.flows
                   && table.flows[started.value] == NewLogin(owner, expiresAt, old(table.held[t]), now, interval)
              else threads[t] == Closing && t in table.held
      ensures clock == old(clock) && Unexpired(pending, old(table.flows), now) && (started.None? <==> |pending| >= 20)
    {
      var id := NewFlowId(table.used);
      var atCapacity;
      atCapacity, pending, run := FileAs(t, id, owner, expiresAt, interval, now, s0, before);
      started := if atCapacity then None else Some(id);
    }

    /** The flow is filed, or at capacity its client closed. */
    method FileLogin(t: Thread, owner: string, device: Device, now: int, es: seq<Event>, ghost s0: State, ghost before: seq<Event>)
      returns (started: Option<FlowId>, ghost pending: set<FlowId>, ghost run: seq<Event>)
      requires Inv(s0) && TableInv(table) && Runs.Exec(Step, s0, before) == Some(Abs())
      requires t in threads && threads[t].Starting? && t in table.held && now <= clock
      modifies this
      ensures Runs.Exec(Step, s0, run) == Some(Abs()) && t in threads && threads[t] == Done && t !in table.held
      ensures started.Some? ==>
                clock == old(clock) && started.value in table.flows
                && table.flows[started.value] == Started(owner, old(table.held[t]), device, now)
      ensures Unexpired(pending, old(table.flows), now) && (started.None? <==> |pending| >= 20)
    {
      var interval := ClampInterval(device.interval);
      started, pending, run := FileNew(t, owner, now + device.expiresIn * SECOND, interval, now, s0, before);
      if started.None? {
        run := YieldAndClose(t, es, s0, run);
      }
    }

    /**
     startGrokOAuthDevice from the client on. `device` is the device endpoint's answer, None for an error or one with
     a missing or invalid text; `lag` is how long before the locked section the handler read the clock.
     */
    method StartDevice(t: Thread, c: Client, owner: string, device: Option<Device>, lag: nat, others: int -> seq<Event>)
      returns (started: Option<FlowId>, ghost readAt: int, ghost pending: set<FlowId>, ghost run: seq<Event>)
      requires Inv(Abs()) && t !in threads && t !in table.held && c !in table.closes
      modifies this
      ensures Runs.Exec(Step, old(Abs()), run) == Some(Abs()) && Inv(Abs())
      ensures t in threads && threads[t] == Done && t !in table.held
      // a login expires when the provider says, counted from when the handler read the clock
      ensures started.Some? ==> Usable(device) && started.value in table.flows
      ensures started.Some? ==> table.flows[started.value] == Started(owner, c, device.value, readAt) && readAt + lag == clock
      // it is refused only with twenty pending, those not expired when the map is locked
      ensures started.None? <==> !Usable(device) || |pending| >= 20
      ensures others(0) == [] ==> readAt + lag == old(clock) && Unexpired(pending, old(table.flows), readAt)
    {
      ghost var s0 := Abs();
      run := BindAndYield(t, c, others(0));
      var now := clock - lag;
      readAt := now;
      started, pending, run := FileOrFail(t, owner, device, now, others(1), s0, run);
      RunKeepsInv(s0, run);
    }

    /** The client is built, and the device endpoint asked. */
    method BindAndYield(t: Thread, c: Client, es: seq<Event>) returns (ghost run: seq<Event>)
      requires Inv(Abs()) && t !in threads && t !in table.held && c !in table.closes
      modifies this
      ensures Runs.Exec(Step, old(Abs()), run) == Some(Abs()) && Inv(Abs())
      ensures t in threads && threads[t].Starting? && t in table.held && table.held[t] == c
      ensures es == [] ==> table.flows == old(table.flows) && clock == old(clock)
    {
      ghost var s0 := Abs();
      BindClient(t, c);
      run := Runs.Extended(Step, s0, [], s0, BuildClient(t, c), Abs());
      run := Yield(t, es, s0, run);
      RunKeepsInv(s0, run);
    }

    /** The device endpoint's answer is in. */
    method FileOrFail(t: Thread, owner: string, device: Option<Device>, now: int, es: seq<Event>, ghost s0: State, ghost before: seq<Event>)
      returns (started: Option<FlowId>, ghost pending: set<FlowId>, ghost run: seq<Event>)
      requires Inv(s0) && Inv(Abs()) && Runs.Exec(Step, s0, before) == Some(Abs())
      requires t in threads && threads[t].Starting? && t in table.held && now <= clock
      modifies this
      ensures Runs.Exec(Step, s0, run) == Some(Abs()) && t in threads && threads[t] == Done && t !in table.held
      ensures started.Some? ==>
                Usable(device) && clock == old(clock) && started.value in table.flows
                && table.flows[started.value] == Started(owner, old(table.held[t]), device.value, now)
      ensures Unexpired(pending, old(table.flows), now) && (started.None? <==> !Usable(device) || |pending| >= 20)
    {
      if device.None? || device.value.expiresIn <= 0 || device.value.expiresIn > MAX_DEVICE_CODE_TTL {
        pending := set id | id in table.flows && now < table.flows[id].expiresAt;
        run := FailStart(t, s0, before);
        started := None;
      } else {
        started, pending, run := FileLogin(t, owner, device.value, now, es, s0, before);
      }
    }
  }
}

/**
 The PKCE login handlers as the code that runs, each locked section one method, with any interference
 by other handlers between the sections. Every call is a run of the machine in module PkceFlow.
 */
module PkceLogins {
  import opened Prelude
  import opened FlowTable
  import opened PkceFlow
  import Credentials
  import Runs

  const PKCE_FLOW_TTL := 600_000_000_000

  /** The handler's answer to its caller. */
  datatype Reply =
    | FlowNotFound | StateMismatch | Finalizing | InvalidGrantReply | Failed | InvalidResponse | CreateFailed | Complete

  predicate IsBy(e: Event, t: Thread) { !e.ShutdownLocked? && e.t == t }

  /** Where a thread stands, the client it holds and the accounts created: no other thread's action changes these. */
  ghost predicate StandsAt(s: State, t: Thread, pc: Option<Pc>, client: Option<Client>, was: seq<FlowId>) {
    && (if t in s.threads then Some(s.threads[t]) else None) == pc
    && (if t in s.table.held then Some(s.table.held[t]) else None) == client
    && was <= s.created
  }

  lemma StartLeavesThread(s: State, e: Event, t: Thread, pc: Option<Pc>, client: Option<Client>, was: seq<FlowId>)
    requires e.StartLocked? && StartStep(s, e).Some? && !IsBy(e, t) && StandsAt(s, t, pc, client, was)
    ensures StandsAt(StartStep(s, e).value, t, pc, client, was)
  {
  }

  lemma OtherLeavesThread(s: State, e: Event, t: Thread, pc: Option<Pc>, client: Option<Client>, was: seq<FlowId>)
    requires Step(s, e).Some? && !IsBy(e, t) && StandsAt(s, t, pc, client, was)
    ensures StandsAt(Step(s, e).value, t, pc, client, was)
  {
    if e.StartLocked? { StartLeavesThread(s, e, t, pc, client, was); }
  }

  lemma OthersLeaveThread(s: State, t: Thread, pc: Option<Pc>, client: Option<Client>, es: seq<Event>)
    requires StandsAt(s, t, pc, client, s.created)
    ensures StandsAt(Runs.Interleave(Step, e => IsBy(e, t), s, es), t, pc, client, s.created)
  {
    var inv := p => StandsAt(p, t, pc, client, s.created);
    forall p, e | inv(p) && !IsBy(e, t) && Step(p, e).Some? ensures inv(Step(p, e).value) {
      OtherLeavesThread(p, e, t, pc, client, s.created);
    }
    Runs.InterleaveKeeps(Step, e => IsBy(e, t), inv, s, es);
  }

  /** The caller's own pending login that has not expired. */
  predicate IsPending(flows: map<FlowId, Flow<PkceData>>, id: FlowId, owner: string, provider: Provider, now: int) {
    && id in flows && now < flows[id].expiresAt
    && flows[id].owner == owner && flows[id].data.provider == provider
  }

  /** What an exchange answers without asking anybody; None when it goes on. */
  function Early(flows: map<FlowId, Flow<PkceData>>, id: FlowId, owner: string, provider: Provider, returned: string, now: int): Option<Reply> {
    if !IsPending(flows, id, owner, provider, now) then Some(FlowNotFound)
    else if returned != "" && returned != flows[id].data.state then Some(StateMismatch)
    else if flows[id].data.finalizing then Some(Finalizing)
    else None
  }

  /** What it answers once it has the token endpoint's answer. */
  function Outcome(answer: Answer, createOk: bool): Reply {
    match answer
    case InvalidGrant => InvalidGrantReply
    case OtherFailure => Failed
    case NoAccessToken => InvalidResponse
    case NoAccountId => InvalidResponse
    case Good => if createOk then Complete else CreateFailed
  }

  /** The answers after which a login cannot be used again. */
  predicate UsesUp(answer: Answer, createOk: bool) {
    answer.InvalidGrant? || answer.NoAccountId? || (answer.Good? && createOk)
  }

  /** Login `id` without a claim on it. */
  function Unclaimed(flows: map<FlowId, Flow<PkceData>>, id: FlowId): map<FlowId, Flow<PkceData>> {
    if id in flows then flows[id := flows[id].(data := flows[id].data.(finalizing := false))] else flows
  }

  /** Expired logins play no part in the early answer. */
  lemma EarlyAfterCleanup(flows: map<FlowId, Flow<PkceData>>, cleaned: map<FlowId, Flow<PkceData>>, id: FlowId, owner: string,
                          provider: Provider, returned: string, now: int)
    requires OnlyExpiredGone(flows, cleaned, now, {})
    ensures Early(cleaned, id, owner, provider, returned, now) == Early(flows, id, owner, provider, returned, now)
  {
  }

  /** From the claim to the end: the login is used up, or as it was before. */
  lemma AfterClaim(flows: map<FlowId, Flow<PkceData>>, claimed: map<FlowId, Flow<PkceData>>, now: int, id: FlowId)
    requires OnlyExpiredGone(flows, claimed, now, {id}) && id in claimed && !flows[id].data.finalizing
    requires claimed[id] == flows[id].(data := flows[id].data.(finalizing := true))
    ensures GoneToo(flows, claimed - {id}, now, id) && OnlyExpiredGone(flows, Unclaimed(claimed, id), now, {})
  {
    ThenGone(flows, claimed, now, id);
    ThenChanged(flows, claimed, now, id, flows[id]);
    assert Unclaimed(claimed, id) == claimed[id := flows[id]];
  }

  class Logins {
    var table: Table<PkceData>
    var threads: map<Thread, Pc>
    var created: seq<FlowId>
    var claims: map<FlowId, Thread>

    function Abs(): State
      reads this
    {
      State(table, threads, created, claims)
    }

    constructor ()
      ensures Abs() == INIT
    {
      table, threads, created, claims := Table(map[], map[], map[], {}, map[]), map[], [], map[];
    }

    method Become(s: State)
      modifies this
      ensures Abs() == s
    {
      table, threads, created, claims := s.table, s.threads, s.created, s.claims;
    }

    /** Lets other handlers act. */
    method Yield(t: Thread, es: seq<Event>, ghost s0: State, ghost before: seq<Event>) returns (ghost run: seq<Event>)
      requires Runs.Exec(Step, s0, before) == Some(Abs())
      modifies this
      ensures Runs.Exec(Step, s0, run) == Some(Abs())
      ensures old(t in threads) ==> t in threads && threads[t] == old(threads[t])
      ensures old(t in table.held) ==> t in table.held && table.held[t] == old(table.held[t])
      ensures old(t !in table.held) ==> t !in table.held
      ensures old(created) <= created && (es == [] ==> Abs() == old(Abs()))
    {
      OthersLeaveThread(Abs(), t, if t in threads then Some(threads[t]) else None,
                        if t in table.held then Some(table.held[t]) else None, es);
      run := Runs.InterleaveRun(Step, e => IsBy(e, t), Abs(), es);
      Runs.ExecAppend(Step, s0, before, run);
      run := before + run;
      Become(Runs.Interleave(Step, e => IsBy(e, t), Abs(), es));
    }

    // ---- The locked sections ----

    /** bindOAuthSubscriptionRequest builds the login's client, which the handler holds. */
    method BindClient(t: Thread, c: Client)
      requires t !in threads && t !in table.held && c !in table.closes
      modifies this
      ensures Step(old(Abs()), BuildClient(t, c)) == Some(Abs())
      ensures t in threads && threads[t] == Starting && t in table.held && table.held[t] == c
      ensures table.flows == old(table.flows)
    {
      table := Build(table, t, c);
      threads := threads[t := Starting];
    }

    /** Every early return of startPKCEOAuth closes the client. */
    method AbandonStart(t: Thread)
      requires t in threads && threads[t].Starting? && t in table.held && table.held[t] in table.closes
      modifies this
      ensures Step(old(Abs()), StartFailed(t)) == Some(Abs())
      ensures t in threads && threads[t] == Done && t !in table.held
    {
      table := CloseHeld(table, t);
      threads := threads[t := Done];
    }

    /** Closing the server: every pending login goes, and its client is closed. */
    method CloseAll()
      requires TableInv(table)
      modifies this`table
      ensures Step(old(Abs()), ShutdownLocked) == Some(Abs())
      ensures TableInv(table) && table.flows == map[]
    {
      table := FlowTable.ShutdownLocked(table);
    }

    /** The locked section of startPKCEOAuth, from its capacity check on. */
    method FileUnlessFull(t: Thread, id: FlowId, owner: string, expiresAt: int, data: PkceData) returns (atCapacity: bool)
      requires t in table.held
      modifies this
      ensures Abs() == StartClean(old(Abs()), t, id, owner, expiresAt, data)
      ensures t in threads && threads[t] == (if atCapacity then Closing else Done) && (atCapacity <==> t in table.held)
      ensures atCapacity <==> |old(table.flows)| >= 20
      ensures !atCapacity ==> id in table.flows && table.flows[id] == Flow(owner, expiresAt, old(table.held[t]), data)
    {
      atCapacity := |table.flows| >= MAX_PENDING;
      if atCapacity {
        threads := threads[t := Closing];
      } else {
        table := File(table, t, id, owner, expiresAt, data);
        threads := threads[t := Done];
      }
    }

    /** The locked section of startPKCEOAuth. */
    method FileLocked(t: Thread, id: FlowId, owner: string, expiresAt: int, provider: Provider, state: string, now: int)
      returns (atCapacity: bool, ghost pending: set<FlowId>)
      requires TableInv(table) && t in threads && threads[t].Starting? && t in table.held && id !in table.used
      modifies this
      ensures StartStep(old(Abs()), StartLocked(t, id, owner, expiresAt, provider, state, now)) == Some(Abs())
      ensures t in threads && threads[t] == (if atCapacity then Closing else Done) && (atCapacity <==> t in table.held)
      ensures Unexpired(pending, old(table.flows), now) && (atCapacity <==> |pending| >= 20)
      ensures !atCapacity ==> id in table.flows
      ensures !atCapacity ==> table.flows[id] == Flow(owner, expiresAt, old(table.held[t]), PkceData(provider, state, false))
    {
      pending := CleanedSize(table, now);
      table := CleanupLocked(table, now);
      atCapacity := FileUnlessFull(t, id, owner, expiresAt, PkceData(provider, state, false));
    }

    /** The locked section of exchangePKCEOAuth after its cleanup; `reply` when it answers without going on. */
    method LookUp(t: Thread, id: FlowId, owner: string, provider: Provider, returned: string, ghost now: int) returns (reply: Option<Reply>)
      requires t !in table.held && forall i :: i in table.flows ==> now < table.flows[i].expiresAt
      modifies this
      ensures Abs() == ExchangeClean(old(Abs()), t, id, owner, provider, returned)
      ensures reply == Early(old(table.flows), id, owner, provider, returned, now)
      ensures table.flows == if reply.Some? then old(table.flows)
                             else old(table.flows)[id := old(table.flows)[id].(data := old(table.flows)[id].data.(finalizing := true))]
      ensures created == old(created) && claims == if reply.Some? then old(claims) else old(claims)[id := t]
      ensures t in threads && table.held == old(table.held)
      ensures if reply.Some? then threads[t] == Done && !reply.value.Complete? else threads[t] == Exchanging(id, provider)
    {
      if id !in table.flows || table.flows[id].owner != owner || table.flows[id].data.provider != provider {
        reply := Some(FlowNotFound);
      } else if |returned| > 0 && returned != table.flows[id].data.state {
        reply := Some(StateMismatch);
      } else if table.flows[id].data.finalizing {
        reply := Some(Finalizing);
      } else {
        reply := None;
        table := SetData(table, id, table.flows[id].data.(finalizing := true));
        threads, claims := threads[t := Exchanging(id, provider)], claims[id := t];
      }
      if reply.Some? {
        threads := threads[t := Done];
      }
    }

    /** The locked section of exchangePKCEOAuth. */
    method ExchangeSection(t: Thread, id: FlowId, owner: string, provider: Provider, returned: string, now: int)
      returns (reply: Option<Reply>)
      requires TableInv(table) && t !in threads && t !in table.held
      modifies this
      ensures ExchangeStep(old(Abs()), t, id, owner, provider, returned, now) == Some(Abs())
      ensures reply == Early(old(table.flows), id, owner, provider, returned, now)
      ensures OnlyExpiredGone(old(table.flows), table.flows, now, if reply.Some? then {} else {id})
      ensures created == old(created) && claims == if reply.Some? then old(claims) else old(claims)[id := t]
      ensures reply.None? ==> id in table.flows && id in old(table.flows)
      ensures reply.None? ==> table.flows[id] == old(table.flows)[id].(data := old(table.flows)[id].data.(finalizing := true))
      ensures t in threads && t !in table.held
      ensures if reply.Some? then threads[t] == Done && !reply.value.Complete? else threads[t] == Exchanging(id, provider)
    {
      ghost var was := table;
      table := CleanupLocked(table, now);
      CleanedUp(was, table, now);
      EarlyAfterCleanup(was.flows, table.flows, id, owner, provider, returned, now);
      ghost var cleaned := table.flows;
      reply := LookUp(t, id, owner, provider, returned, now);
      if reply.None? { ThenChanged(was.flows, cleaned, now, id, table.flows[id]); }
    }

    /** setPKCEFinalizing */
    method ClearFinalizing(t: Thread, id: FlowId)
      requires t in threads && threads[t].Clearing? && threads[t].id == id
      modifies this
      ensures ClearStep(old(Abs()), t) == Some(Abs())
      ensures t in threads && threads[t] == (if old(threads[t].thenRemove) then Removing(id) else Done)
      ensures table.flows == Unclaimed(old(table.flows), id)
      ensures table.held == old(table.held) && created == old(created)
    {
      if id in table.flows {
        table := SetData(table, id, table.flows[id].data.(finalizing := false));
      }
      threads := threads[t := if threads[t].thenRemove then Removing(id) else Done];
    }

    /** repo.CreateSubscription, which succeeds or does nothing. */
    method Create(t: Thread, ok: bool)
      requires t in threads && threads[t].Creating?
      modifies this
      ensures CreateStep(old(Abs()), t, ok) == Some(Abs())
      ensures t in threads && threads[t] == if ok then Created(old(threads[t].id)) else Clearing(old(threads[t].id), false)
      ensures table == old(table) && created == old(created) + if ok then [old(threads[t].id)] else []
    {
      var id := threads[t].id;
      if ok {
        created, threads := created + [id], threads[t := Created(id)];
      } else {
        threads := threads[t := Clearing(id, false)];
      }
    }

    /** The locked section of removePKCEOAuthFlow. */
    method RemoveSection(t: Thread, id: FlowId) returns (found: bool)
      requires t in threads && (threads[t] == Removing(id) || threads[t] == Created(id)) && t !in table.held
      modifies this
      ensures RemoveStep(old(Abs()), t) == Some(Abs())
      ensures found == (id in old(table.flows)) && id !in table.flows
      ensures table.flows == old(table.flows) - {id}
      ensures t in threads && threads[t] == if found then Closing else Done
      ensures (found <==> t in table.held) && created == old(created)
    {
      found := id in table.flows;
      table := Remove(table, t, id);
      threads := threads[t := if found then Closing else Done];
    }

    /** closeHTTPClient on the client the thread holds. */
    method CloseClientOf(t: Thread)
      requires t in threads && threads[t].Closing? && t in table.held && table.held[t] in table.closes
      modifies this
      ensures Step(old(Abs()), CloseClient(t)) == Some(Abs())
      ensures t in threads && threads[t] == Done && t !in table.held && created == old(created) && table.flows == old(table.flows)
    {
      table := CloseHeld(table, t);
      threads := threads[t := Done];
    }

    // ---- The handlers ----

    method CloseAfter(t: Thread, ghost s0: State, ghost before: seq<Event>) returns (ghost run: seq<Event>)
      requires Inv(s0) && Runs.Exec(Step, s0, before) == Some(Abs())
      requires t in threads && threads[t].Closing? && t in table.held
      modifies this
      ensures Runs.Exec(Step, s0, run) == Some(Abs()) && t in threads && threads[t] == Done && t !in table.held
      ensures created == old(created) && table.flows == old(table.flows)
    {
      ghost var s := Abs();
      RunKeepsInv(s0, before);
      CloseClientOf(t);
      run := Runs.Extended(Step, s0, before, s, CloseClient(t), Abs());
    }

    /** Lets others act and then closes the client. */
    method YieldAndClose(t: Thread, es: seq<Event>, ghost s0: State, ghost before: seq<Event>) returns (ghost run: seq<Event>)
      requires Inv(s0) && Runs.Exec(Step, s0, before) == Some(Abs())
      requires t in threads && threads[t].Closing? && t in table.held
      modifies this
      ensures Runs.Exec(Step, s0, run) == Some(Abs()) && t in threads && threads[t] == Done && t !in table.held
      ensures old(created) <= created && (es == [] ==> created == old(created) && table.flows == old(table.flows))
    {
      run := Yield(t, es, s0, before);
      run := CloseAfter(t, s0, run);
    }

    /** removePKCEOAuthFlow */
    method RemoveFlow(t: Thread, id: FlowId, others: int -> seq<Event>, ghost s0: State, ghost before: seq<Event>)
      returns (ghost run: seq<Event>)
      requires Inv(s0) && Runs.Exec(Step, s0, before) == Some(Abs())
      requires t in threads && (threads[t] == Removing(id) || threads[t] == Created(id)) && t !in table.held
      modifies this
      ensures Runs.Exec(Step, s0, run) == Some(Abs()) && t in threads && threads[t] == Done && t !in table.held
      ensures old(created) <= created
      ensures Runs.Undisturbed(others) ==> created == old(created) && table.flows == old(table.flows) - {id}
    {
      ghost var s := Abs();
      var found := RemoveSection(t, id);
      run := Runs.Extended(Step, s0, before, s, RemoveLocked(t), Abs());
      if found {
        run := YieldAndClose(t, others(6), s0, run);
      }
    }

    /** Lets others act and then removes the flow. */
    method YieldAndRemove(t: Thread, id: FlowId, others: int -> seq<Event>, ghost s0: State, ghost before: seq<Event>)
      returns (ghost run: seq<Event>)
      requires Inv(s0) && Runs.Exec(Step, s0, before) == Some(Abs())
      requires t in threads && threads[t] == Removing(id) && t !in table.held
      modifies this
      ensures Runs.Exec(Step, s0, run) == Some(Abs()) && t in threads && threads[t] == Done && t !in table.held
      ensures Runs.Undisturbed(others) ==> created == old(created) && table.flows == old(table.flows) - {id}
    {
      run := Yield(t, others(5), s0, before);
      run := RemoveFlow(t, id, others, s0, run);
    }

    /** Gives the claim up, and for an invalid grant then removes the flow. */
    method GiveUp(t: Thread, id: FlowId, others: int -> seq<Event>, ghost s0: State, ghost before: seq<Event>)
      returns (ghost run: seq<Event>)
      requires Inv(s0) && Runs.Exec(Step, s0, before) == Some(Abs())
      requires t in threads && threads[t].Clearing? && threads[t].id == id && t !in table.held
      modifies this
      ensures Runs.Exec(Step, s0, run) == Some(Abs()) && t in threads && threads[t] == Done && t !in table.held
      ensures Runs.Undisturbed(others) ==>
                created == old(created) && table.flows == if old(threads[t].thenRemove) then old(table.flows) - {id} else Unclaimed(old(table.flows), id)
    {
      ghost var s := Abs();
      ClearFinalizing(t, id);
      run := Runs.Extended(Step, s0, before, s, ClearLocked(t), Abs());
      if threads[t].Removing? {
        run := YieldAndRemove(t, id, others, s0, run);
      }
    }

    /** The call of CreateSubscription, and what gets in after it. */
    method CreateAndYield(t: Thread, id: FlowId, createOk: bool, es: seq<Event>, ghost s0: State, ghost before: seq<Event>)
      returns (ghost run: seq<Event>)
      requires Runs.Exec(Step, s0, before) == Some(Abs())
      requires t in threads && threads[t] == Creating(id) && t !in table.held
      modifies this
      ensures Runs.Exec(Step, s0, run) == Some(Abs()) && t in threads && t !in table.held
      ensures threads[t] == if createOk then Created(id) else Clearing(id, false)
      ensures createOk ==> id in created
      ensures es == [] ==> table == old(table) && created == old(created) + if createOk then [id] else []
    {
      ghost var s := Abs();
      Create(t, createOk);
      assert createOk ==> created[|created| - 1] == id;
      ghost var was := created;
      run := Runs.Extended(Step, s0, before, s, CreateSubscription(t, createOk), Abs());
      run := Yield(t, es, s0, run);
      assert createOk ==> created[|was| - 1] == id;
    }

    method CreateAccount(t: Thread, id: FlowId, createOk: bool, others: int -> seq<Event>, ghost s0: State, ghost before: seq<Event>)
      returns (reply: Reply, ghost run: seq<Event>)
      requires Inv(s0) && Runs.Exec(Step, s0, before) == Some(Abs())
      requires t in threads && threads[t] == Creating(id) && t !in table.held
      modifies this
      ensures Runs.Exec(Step, s0, run) == Some(Abs()) && t in threads && threads[t] == Done && t !in table.held
      ensures reply == if createOk then Complete else CreateFailed
      ensures Runs.Undisturbed(others) ==>
                && created == old(created) + (if createOk then [id] else [])
                && table.flows == if createOk then old(table.flows) - {id} else Unclaimed(old(table.flows), id)
      ensures reply.Complete? ==> id in created
    {
      run := CreateAndYield(t, id, createOk, others(3), s0, before);
      if createOk {
        ghost var was := created;
        run := RemoveFlow(t, id, others, s0, run);
        assert id in was && was <= created;
        reply := Complete;
      } else {
        run := GiveUp(t, id, others, s0, run);
        reply := CreateFailed;
      }
    }

    /** What the handler does with the token endpoint's answer. */
    method AfterExchange(t: Thread, id: FlowId, answer: Answer, createOk: bool, others: int -> seq<Event>, ghost s0: State, ghost before: seq<Event>)
      returns (reply: Reply, ghost run: seq<Event>)
      requires Inv(s0) && Runs.Exec(Step, s0, before) == Some(Abs())
      requires t in threads && threads[t] == AfterAnswer(answer, id) && t !in table.held
      modifies this
      ensures Runs.Exec(Step, s0, run) == Some(Abs()) && t in threads && threads[t] == Done && t !in table.held
      ensures reply == Outcome(answer, createOk)
      ensures Runs.Undisturbed(others) ==>
                && created == old(created) + (if answer.Good? && createOk then [id] else [])
                && table.flows == if UsesUp(answer, createOk) then old(table.flows) - {id} else Unclaimed(old(table.flows), id)
      ensures reply.Complete? ==> answer.Good? && createOk && id in created
    {
      match answer {
        case Good => reply, run := CreateAccount(t, id, createOk, others, s0, before);
        case NoAccountId =>
          run := RemoveFlow(t, id, others, s0, before);
          reply := InvalidResponse;
        case _ =>
          run := GiveUp(t, id, others, s0, before);
          reply := if answer.InvalidGrant? then InvalidGrantReply else if answer.OtherFailure? then Failed else InvalidResponse;
      }
    }

    /** From the claim on: the code goes out, and the answer comes in. */
    method ExchangeCode(t: Thread, id: FlowId, provider: Provider, answer: Answer, createOk: bool, others: int -> seq<Event>, ghost s0: State, ghost before: seq<Event>)
      returns (reply: Reply, ghost run: seq<Event>)
      requires Inv(s0) && Runs.Exec(Step, s0, before) == Some(Abs()) && (answer.NoAccountId? ==> provider == Credentials.Codex)
      requires t in threads && threads[t] == Exchanging(id, provider) && t !in table.held
      modifies this
      ensures Runs.Exec(Step, s0, run) == Some(Abs()) && t in threads && threads[t] == Done && t !in table.held
      ensures reply == Outcome(answer, createOk)
      ensures Runs.Undisturbed(others) ==>
                && created == old(created) + (if answer.Good? && createOk then [id] else [])
                && table.flows == if UsesUp(answer, createOk) then old(table.flows) - {id} else Unclaimed(old(table.flows), id)
      ensures reply.Complete? ==> answer.Good? && createOk && id in created
    {
      run := Yield(t, others(1), s0, before);
      ghost var s := Abs();
      threads := threads[t := AfterAnswer(answer, id)];
      run := Runs.Extended(Step, s0, run, s, Answered(t, answer), Abs());
      run := Yield(t, others(2), s0, run);
      reply, run := AfterExchange(t, id, answer, createOk, others, s0, run);
    }

    /** From the claim on, compared with the logins `was` before it. */
    method ExchangeClaimed(t: Thread, id: FlowId, provider: Provider, ghost was: map<FlowId, Flow<PkceData>>, ghost now: int, answer: Answer,
                           createOk: bool, others: int -> seq<Event>, ghost s0: State, ghost before: seq<Event>)
      returns (reply: Reply, ghost run: seq<Event>)
      requires Inv(s0) && Runs.Exec(Step, s0, before) == Some(Abs()) && (answer.NoAccountId? ==> provider == Credentials.Codex)
      requires t in threads && threads[t] == Exchanging(id, provider) && t !in table.held
      requires OnlyExpiredGone(was, table.flows, now, {id}) && id in table.flows && !was[id].data.finalizing
      requires table.flows[id] == was[id].(data := was[id].data.(finalizing := true))
      modifies this
      ensures Runs.Exec(Step, s0, run) == Some(Abs()) && t in threads && threads[t] == Done && t !in table.held
      ensures reply == Outcome(answer, createOk) && (reply.Complete? ==> answer.Good? && createOk && id in created)
      ensures Runs.Undisturbed(others) ==>
                && created == old(created) + (if answer.Good? && createOk then [id] else [])
                && if UsesUp(answer, createOk) then GoneToo(was, table.flows, now, id) else OnlyExpiredGone(was, table.flows, now, {})
    {
      AfterClaim(was, table.flows, now, id);
      reply, run := ExchangeCode(t, id, provider, answer, createOk, others, s0, before);
    }

    /** The locked section and all that follows it. */
    method ExchangeSteps(t: Thread, id: FlowId, owner: string, provider: Provider, returned: string, now: int,
                         answer: Answer, createOk: bool, others: int -> seq<Event>)
      returns (reply: Reply, ghost run: seq<Event>)
      requires Inv(Abs()) && t !in threads && t !in table.held && (answer.NoAccountId? ==> provider == Credentials.Codex)
      modifies this
      ensures Runs.Exec(Step, old(Abs()), run) == Some(Abs())
      ensures t in threads && threads[t] == Done && t !in table.held
      ensures var early := Early(old(table.flows), id, owner, provider, returned, now);
              reply == if early.Some? then early.value else Outcome(answer, createOk)
      ensures Early(old(table.flows), id, owner, provider, returned, now).Some? ==>
                claims == old(claims) && created == old(created) && OnlyExpiredGone(old(table.flows), table.flows, now, {})
      // when nobody interferes, a login either is used up or can be tried again
      ensures Runs.Undisturbed(others) && Early(old(table.flows), id, owner, provider, returned, now).None? ==>
                && created == old(created) + (if answer.Good? && createOk then [id] else [])
                && if UsesUp(answer, createOk) then GoneToo(old(table.flows), table.flows, now, id)
                   else OnlyExpiredGone(old(table.flows), table.flows, now, {})
      ensures reply.Complete? ==> answer.Good? && createOk && id in created
    {
      ghost var s0 := Abs();
      var early := ExchangeSection(t, id, owner, provider, returned, now);
      run := Runs.Extended(Step, s0, [], s0, ExchangeLocked(t, id, owner, provider, returned, now), Abs());
      if early.Some? {
        reply := early.value;
      } else {
        reply, run := ExchangeClaimed(t, id, provider, s0.table.flows, now, answer, createOk, others, s0, run);
      }
    }

    /**
     exchangePKCEOAuth, run by thread `t`. `answer` and `createOk` are what the token endpoint and the
     database say if they are asked; `others` lists what other handlers do wherever they can get in.
     */
    method ExchangeOAuth(t: Thread, id: FlowId, owner: string, provider: Provider, returned: string, now: int,
                         answer: Answer, createOk: bool, others: int -> seq<Event>)
      returns (reply: Reply, ghost run: seq<Event>)
      requires Inv(Abs()) && t !in threads && t !in table.held && (answer.NoAccountId? ==> provider == Credentials.Codex)
      modifies this
      ensures Runs.Exec(Step, old(Abs()), run) == Some(Abs()) && Inv(Abs())
      ensures t in threads && threads[t] == Done && t !in table.held
      ensures var early := Early(old(table.flows), id, owner, provider, returned, now);
              reply == if early.Some? then early.value else Outcome(answer, createOk)
      ensures Early(old(table.flows), id, owner, provider, returned, now).Some? ==>
                claims == old(claims) && created == old(created) && OnlyExpiredGone(old(table.flows), table.flows, now, {})
      // when nobody interferes, a login either is used up or can be tried again
      ensures Runs.Undisturbed(others) && Early(old(table.flows), id, owner, provider, returned, now).None? ==>
                && created == old(created) + (if answer.Good? && createOk then [id] else [])
                && if UsesUp(answer, createOk) then GoneToo(old(table.flows), table.flows, now, id)
                   else OnlyExpiredGone(old(table.flows), table.flows, now, {})
      ensures reply.Complete? ==> answer.Good? && createOk && id in created
    {
      ghost var s0 := Abs();
      reply, run := ExchangeSteps(t, id, owner, provider, returned, now, answer, createOk, others);
      RunKeepsInv(s0, run);
    }

    /** A start that fails after the client is built. */
    method FailStart(t: Thread, ghost s0: State, ghost before: seq<Event>) returns (ghost run: seq<Event>)
      requires Inv(Abs()) && Runs.Exec(Step, s0, before) == Some(Abs()) && t in threads && threads[t].Starting? && t in table.held
      modifies this
      ensures Runs.Exec(Step, s0, run) == Some(Abs()) && t in threads && threads[t] == Done && t !in table.held
    {
      ghost var s := Abs();
      AbandonStart(t);
      run := Runs.Extended(Step, s0, before, s, StartFailed(t), Abs());
    }

    /** A flow with a new id, filed unless the map is full. */
    method FileNew(t: Thread, owner: string, provider: Provider, state: string, now: int, ghost s0: State, ghost before: seq<Event>)
      returns (started: Option<FlowId>, ghost pending: set<FlowId>, ghost run: seq<Event>)
      requires TableInv(table) && Runs.Exec(Step, s0, before) == Some(Abs())
      requires t in threads && threads[t].Starting? && t in table.held
      modifies this
      ensures Runs.Exec(Step, s0, run) == Some(Abs()) && t in threads
      ensures if started.Some? then threads[t] == Done && t !in table.held
                   && started.value in table.flows
                   && table.flows[started.value] == Flow(owner, now + 600_000_000_000, old(table.held[t]), PkceData(provider, state, false))
              else threads[t] == Closing && t in table.held
      ensures Unexpired(pending, old(table.flows), now) && (started.None? <==> |pending| >= 20)
    {
      ghost var s := Abs();
      var id := NewFlowId(table.used);
      var expiresAt := now + PKCE_FLOW_TTL;
      var atCapacity;
      atCapacity, pending := FileLocked(t, id, owner, expiresAt, provider, state, now);
      run := Runs.Extended(Step, s0, before, s, StartLocked(t, id, owner, expiresAt, provider, state, now), Abs());
      started := if atCapacity then None else Some(id);
    }

    /** The flow is filed, or at capacity its client closed. */
    method FileLogin(t: Thread, owner: string, provider: Provider, state: string, now: int, es: seq<Event>, ghost s0: State, ghost before: seq<Event>)
      returns (started: Option<FlowId>, ghost pending: set<FlowId>, ghost run: seq<Event>)
      requires Inv(s0) && TableInv(table) && Runs.Exec(Step, s0, before) == Some(Abs())
      requires t in threads && threads[t].Starting? && t in table.held
      modifies this
      ensures Runs.Exec(Step, s0, run) == Some(Abs()) && t in threads && threads[t] == Done && t !in table.held
      ensures var f := Flow(owner, now + 600_000_000_000, old(table.held[t]), PkceData(provider, state, false));
              started.Some? ==> started.value in table.flows && table.flows[started.value] == f
      ensures Unexpired(pending, old(table.flows), now) && (started.None? <==> |pending| >= 20)
    {
      started, pending, run := FileNew(t, owner, provider, state, now, s0, before);
      if started.None? {
        run := YieldAndClose(t, es, s0, run);
      }
    }

    /** startPKCEOAuth from the client on; `ready` when state, verifier and URL could be made. */
    method StartOAuth(t: Thread, c: Client, owner: string, provider: Provider, state: string, now: int, ready: bool, others: int -> seq<Event>)
      returns (started: Option<FlowId>, ghost pending: set<FlowId>, ghost run: seq<Event>)
      requires Inv(Abs()) && t !in threads && t !in table.held && c !in table.closes
      modifies this
      ensures Runs.Exec(Step, old(Abs()), run) == Some(Abs()) && Inv(Abs())
      ensures t in threads && threads[t] == Done && t !in table.held
      // a login lasts ten minutes and is open to its owner and provider, with its own state
      ensures started.Some? ==> ready && started.value in table.flows
      ensures started.Some? ==> table.flows[started.value] == Flow(owner, now + 600_000_000_000, c, PkceData(provider, state, false))
      // it is refused only with twenty pending, those not expired when the map is locked
      ensures started.None? <==> !ready || |pending| >= 20
      ensures others(0) == [] ==> Unexpired(pending, old(table.flows), now)
    {
      ghost var s0 := Abs();
      BindClient(t, c);
      run := Runs.Extended(Step, s0, [], s0, BuildClient(t, c), Abs());
      run := Yield(t, others(0), s0, run);
      RunKeepsInv(s0, run);
      if ready {
        started, pending, run := FileLogin(t, owner, provider, state, now, others(1), s0, run);
      } else {
        pending := set id | id in table.flows && now < table.flows[id].expiresAt;
        run := FailStart(t, s0, run);
        started := None;
      }
      RunKeepsInv(s0, run);
    }
  }
}

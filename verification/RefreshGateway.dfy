/**
 credentialsForRequest as the sequential code a thread runs, with any interference by other threads
 at each point where the code can be overtaken. Every call is a run of the machine in module Refresh.
 */
module RefreshGateway {
  import opened Prelude
  import opened Credentials
  import opened Refresh
  import Runs

  /** Where a thread stands, which no other thread's action changes, and the deleted accounts, which stay deleted. */
  ghost predicate StandsAt(s: State, t: Thread, pc: Option<Pc>, deleted: set<Account>, clientIds: Provider -> string) {
    && s.clientIds == clientIds && (if t in s.threads then Some(s.threads[t]) else None) == pc
    && deleted <= s.kinds.Keys && deleted !! s.rows.Keys
  }

  lemma OtherLeavesThread(s: State, e: Event, t: Thread, pc: Option<Pc>, deleted: set<Account>)
    requires Step(s, e).Some? && !By(e, t) && StandsAt(s, t, pc, deleted, s.clientIds)
    ensures StandsAt(Step(s, e).value, t, pc, deleted, s.clientIds)
  {
  }

  lemma OthersLeaveThread(s: State, t: Thread, pc: Option<Pc>, deleted: set<Account>, es: seq<Event>)
    requires StandsAt(s, t, pc, deleted, s.clientIds)
    ensures StandsAt(Runs.Interleave(Step, e => By(e, t), s, es), t, pc, deleted, s.clientIds)
  {
    var inv := p => StandsAt(p, t, pc, deleted, s.clientIds);
    forall p, e | inv(p) && !By(e, t) && Step(p, e).Some? ensures inv(Step(p, e).value) {
      OtherLeavesThread(p, e, t, pc, deleted);
    }
    Runs.InterleaveKeeps(Step, e => By(e, t), inv, s, es);
  }

  /** How many token requests of thread `t` are in a run. */
  function Requests(run: seq<Event>, t: Thread): int { multiset(run)[Send(t)] }

  /** The run grows by what the others do, and no request of `t` is among it. */
  lemma Interference(s0: State, before: seq<Event>, s: State, t: Thread, es: seq<Event>) returns (run: seq<Event>)
    requires Runs.Exec(Step, s0, before) == Some(s)
    ensures Runs.Exec(Step, s0, run) == Some(Runs.Interleave(Step, e => By(e, t), s, es))
    ensures Requests(run, t) == Requests(before, t)
    ensures es == [] ==> run == before
  {
    var more := Runs.InterleaveRun(Step, e => By(e, t), s, es);
    Runs.ExecAppend(Step, s0, before, more);
    run := before + more;
    assert By(Send(t), t);
    CountsAdd(before, more, Send(t));
  }

  lemma CountsAdd<E>(a: seq<E>, b: seq<E>, e: E)
    ensures multiset(a + b)[e] == multiset(a)[e] + multiset(b)[e]
    ensures e !in b ==> multiset(b)[e] == 0
  {
  }

  /** What the world answers a call: the clock at the two looks, the database's two answers, the proxy and the provider. */
  datatype World = World(checkedAt: int, now: int, readOk: bool, clientOk: bool, answer: Option<TokenResponse>, dbOk: bool)

  /** The mutex the account has, or would get, is free. */
  predicate MutexFree(s: State, x: Account) { (if x in s.locks then s.locks[x] else s.mutexes) !in s.held }

  /** The row that an answer makes of `row`, as far as tokens and expiry go. */
  predicate Carries(row: Row, token: TokenResponse, next: Row) {
    && next.credentials.accessToken == token.accessToken
    && next.credentials.refreshToken == (if token.refreshToken != "" then token.refreshToken else row.credentials.refreshToken)
    && next.expiresAt == token.expiresAt
  }

  predicate Accepts(answer: Option<TokenResponse>) { answer.Some? && answer.value.accessToken != "" }

  /** What a call makes of the row that has to be refreshed, when nobody interferes: exactly one request, then one update. */
  predicate RefreshOutcome(x: Account, w: World, rows: map<Account, Row>, rows': map<Account, Row>, requests: int,
                           result: Result<Credentials, Failure>)
    requires x in rows
  {
    if rows[x].credentials.refreshToken == "" then result == Err(NoRefreshToken) && rows' == rows && requests == 0
    else if !w.clientOk then result == Err(NoClient) && rows' == rows && requests == 0
    else if !Accepts(w.answer) then result == Err(Refused) && rows' == rows && requests == 1
    else if !w.dbOk then result == Err(NotStored) && rows' == rows && requests == 1
    else
      && x in rows' && rows' == rows[x := rows'[x]] && Carries(rows[x], w.answer.value, rows'[x])
      && result == Ok(rows'[x].credentials) && requests == 1
  }

  /** What the part under the mutex does when nobody interferes. */
  predicate LockedOutcome(call: Call, w: World, rows: map<Account, Row>, rows': map<Account, Row>, requests: int,
                          result: Result<Credentials, Failure>)
  {
    if !w.readOk then result == Err(NotRead) && rows' == rows && requests == 0
    else if call.account !in rows then result == Err(NotFound) && rows' == rows && requests == 0
    else
      var row := rows[call.account];
      if (if call.force then row.credentials.accessToken != call.original
          else row.expiresAt.None? ||
               row.expiresAt.value - w.now > if call.kind.provider == Grok then 60_000_000_000 else 600_000_000_000)
      then result == Ok(row.credentials) && rows' == rows && requests == 0
      else RefreshOutcome(call.account, w, rows, rows', requests, result)
  }

  class Gateway {
    const clientIds: Provider -> string
    var kinds: map<Account, Kind>
    var rows: map<Account, Row>
    var locks: map<Account, MutexId>
    var mutexes: int
    var held: map<MutexId, Thread>
    var threads: map<Thread, Pc>
    var dropping: set<Account>
    var past: History

    function Abs(): State
      reads this
    {
      State(clientIds, kinds, rows, locks, mutexes, held, threads, dropping, past)
    }

    constructor (clientIds: Provider -> string)
      ensures Abs() == Init(clientIds)
    {
      this.clientIds := clientIds;
      kinds, rows, locks, mutexes, held, threads, dropping := map[], map[], map[], 0, map[], map[], {};
      past := History(map[], {}, false, {}, {}, {}, {}, []);
    }

    method Become(s: State)
      requires s.clientIds == clientIds
      modifies this
      ensures Abs() == s
    {
      kinds, rows, locks, mutexes, held, threads := s.kinds, s.rows, s.locks, s.mutexes, s.held, s.threads;
      dropping, past := s.dropping, s.past;
    }

    /** Lets other threads act. */
    method Yield(t: Thread, es: seq<Event>, ghost s0: State, ghost before: seq<Event>) returns (ghost run: seq<Event>)
      requires Runs.Exec(Step, s0, before) == Some(Abs())
      modifies this
      ensures Runs.Exec(Step, s0, run) == Some(Abs())
      ensures old(t in threads) ==> t in threads && threads[t] == old(threads[t])
      ensures old(kinds.Keys - rows.Keys) !! rows.Keys
      ensures Requests(run, t) == Requests(before, t)
      ensures es == [] ==> run == before && Abs() == old(Abs())
    {
      OthersLeaveThread(Abs(), t, if t in threads then Some(threads[t]) else None, kinds.Keys - rows.Keys, es);
      run := Interference(s0, before, Abs(), t, es);
      Become(Runs.Interleave(Step, e => By(e, t), Abs(), es));
    }

    /** oauthRefreshLocks.LoadOrStore */
    method LoadOrStoreMutex(t: Thread, ghost s0: State, ghost before: seq<Event>)
      returns (lock: MutexId, ghost run: seq<Event>)
      requires Runs.Exec(Step, s0, before) == Some(Abs())
      requires t in threads && threads[t].WantMutex?
      modifies this`threads, this`locks, this`mutexes
      ensures run == before + [LoadOrStore(t)] && Runs.Exec(Step, s0, run) == Some(Abs())
      ensures t in threads && threads[t] == WantLock(old(threads[t]).call, lock)
      ensures var x := old(threads[t]).call.account; lock == if x in old(locks) then old(locks)[x] else old(mutexes)
    {
      ghost var s := Abs();
      var call := threads[t].call;
      if call.account !in locks {
        locks := locks[call.account := mutexes];
        mutexes := mutexes + 1;
      }
      lock := locks[call.account];
      threads := threads[t := WantLock(call, lock)];
      run := Runs.Extended(Step, s0, before, s, LoadOrStore(t), Abs());
    }

    /** lock.Lock(), when it does not have to wait. */
    method LockMutex(t: Thread, lock: MutexId, ghost s0: State, ghost before: seq<Event>)
      returns (ghost run: seq<Event>)
      requires Runs.Exec(Step, s0, before) == Some(Abs())
      requires t in threads && threads[t].WantLock? && threads[t].mutex == lock && lock !in held
      modifies this`threads, this`held
      ensures run == before + [Lock(t)] && Runs.Exec(Step, s0, run) == Some(Abs())
      ensures t in threads && threads[t] == Locked(old(threads[t]).call, lock) && held == old(held)[lock := t]
    {
      ghost var s := Abs();
      held := held[lock := t];
      threads := threads[t := Locked(threads[t].call, lock)];
      run := Runs.Extended(Step, s0, before, s, Lock(t), Abs());
    }

    /** GetSubscription and the second look at it under the mutex. */
    method ReadAgain(t: Thread, now: int, ghost s0: State, ghost before: seq<Event>)
      returns (done: Option<Result<Credentials, Failure>>, ghost run: seq<Event>)
      requires Runs.Exec(Step, s0, before) == Some(Abs())
      requires t in threads && threads[t].Locked?
      modifies this`threads
      ensures run == before + [ReadRow(t, now)] && Runs.Exec(Step, s0, run) == Some(Abs())
      ensures t in threads && threads[t].call == old(threads[t]).call
      ensures done.Some? ==> threads[t].Unlocking? && threads[t].result == done.value
      ensures done.None? ==> threads[t].Ready?
      ensures var call := old(threads[t]).call;
              if call.account !in rows then done == Some(Err(NotFound))
              else var row := rows[call.account];
                if call.force && row.credentials.accessToken != call.original then done == Some(Ok(row.credentials))
                else if !call.force && row.expiresAt.None? then done == Some(Ok(row.credentials))
                else if !call.force && row.expiresAt.value - now > if call.kind.provider == Grok then 60_000_000_000 else 600_000_000_000
                then done == Some(Ok(row.credentials))
                else if row.credentials.refreshToken == "" then done == Some(Err(NoRefreshToken))
                else done == None && threads[t].row == row
    {
      ghost var s := Abs();
      var call, m := threads[t].call, threads[t].mutex;
      if call.account !in rows {
        done := Some(Err(NotFound));
      } else {
        var latest := rows[call.account];
        var credentials := latest.credentials;
        if call.force && credentials.accessToken != call.original {
          done := Some(Ok(credentials));
        } else if !call.force && NotDue(latest.expiresAt, call.kind.provider, now) {
          done := Some(Ok(credentials));
        } else if credentials.refreshToken == "" {
          done := Some(Err(NoRefreshToken));
        } else {
          done := None;
          threads := threads[t := Ready(call, m, latest)];
        }
      }
      if done.Some? {
        threads := threads[t := Unlocking(call, m, done.value)];
      }
      run := Runs.Extended(Step, s0, before, s, ReadRow(t, now), Abs());
    }

    /** A database error on that second look. */
    method FailToRead(t: Thread, ghost s0: State, ghost before: seq<Event>) returns (ghost run: seq<Event>)
      requires Runs.Exec(Step, s0, before) == Some(Abs())
      requires t in threads && threads[t].Locked?
      modifies this`threads
      ensures run == before + [ReadFailed(t)] && Runs.Exec(Step, s0, run) == Some(Abs())
      ensures t in threads && threads[t] == Unlocking(old(threads[t]).call, old(threads[t]).mutex, Err(NotRead))
    {
      ghost var s := Abs();
      var pc := threads[t];
      threads := threads[t := Unlocking(pc.call, pc.mutex, Err(NotRead))];
      run := Runs.Extended(Step, s0, before, s, ReadFailed(t), Abs());
    }

    /** No client can be built for the account. */
    method FailToBuildClient(t: Thread, ghost s0: State, ghost before: seq<Event>) returns (ghost run: seq<Event>)
      requires Runs.Exec(Step, s0, before) == Some(Abs())
      requires t in threads && threads[t].Ready?
      modifies this`threads
      ensures run == before + [ClientFailed(t)] && Runs.Exec(Step, s0, run) == Some(Abs())
      ensures t in threads && threads[t] == Unlocking(old(threads[t]).call, old(threads[t]).mutex, Err(NoClient))
    {
      ghost var s := Abs();
      var pc := threads[t];
      threads := threads[t := Unlocking(pc.call, pc.mutex, Err(NoClient))];
      run := Runs.Extended(Step, s0, before, s, ClientFailed(t), Abs());
    }

    /** The token request leaves. */
    method SendRequest(t: Thread, ghost s0: State, ghost before: seq<Event>)
      returns (ghost run: seq<Event>)
      requires Runs.Exec(Step, s0, before) == Some(Abs())
      requires t in threads && threads[t].Ready?
      modifies this`threads, this`past
      ensures run == before + [Send(t)] && Runs.Exec(Step, s0, run) == Some(Abs())
      ensures t in threads && threads[t] == InFlight(old(threads[t]).call, old(threads[t]).mutex, old(threads[t]).row)
    {
      ghost var s := Abs();
      var pc := threads[t];
      if WasRetired(past, pc.row.credentials.refreshToken) {
        past := past.(resent := past.resent + {(pc.call.account, pc.row.credentials.refreshToken)});
      }
      threads := threads[t := InFlight(pc.call, pc.mutex, pc.row)];
      run := Runs.Extended(Step, s0, before, s, Send(t), Abs());
    }

    /** The credentials an accepted answer leads to. */
    method Overwrite(pc: Pc, token: TokenResponse) returns (next: Row)
      requires pc.InFlight?
      ensures next == FreshRow(Abs(), pc, token) && Carries(pc.row, token, next)
    {
      var p, stored := pc.call.kind.provider, pc.row.credentials;
      var clientID := FirstNonEmpty(stored.clientID, clientIds(p));
      var credentials;
      if p == Codex {
        credentials := RebuildFromCodexToken(stored, token, clientID);
      } else {
        credentials := OverwriteInPlace(p, stored, token, clientID);
      }
      RefreshedTokens(p, stored, token, clientID);
      next := Row(credentials, token.expiresAt);
    }

    method ReceiveRefusal(t: Thread, ghost s0: State, ghost before: seq<Event>)
      returns (ghost run: seq<Event>)
      requires Runs.Exec(Step, s0, before) == Some(Abs())
      requires t in threads && threads[t].InFlight?
      modifies this`threads
      ensures run == before + [Reject(t)] && Runs.Exec(Step, s0, run) == Some(Abs())
      ensures t in threads && threads[t] == Unlocking(old(threads[t]).call, old(threads[t]).mutex, Err(Refused))
    {
      ghost var s := Abs();
      var pc := threads[t];
      threads := threads[t := Unlocking(pc.call, pc.mutex, Err(Refused))];
      run := Runs.Extended(Step, s0, before, s, Reject(t), Abs());
    }

    /** What an accepted answer adds to the history. */
    method NoteAnswer(pc: Pc, token: TokenResponse, next: Row)
      requires pc.InFlight?
      modifies this`past
      ensures past == Answer(old(past), pc.call.account, pc.row, next, FreshAnswer(old(Abs()), pc.row.credentials.refreshToken, token))
    {
      past := past.(repeated := past.repeated || !FreshAnswer(Abs(), pc.row.credentials.refreshToken, token),
                    issued := Issue(past.issued, pc.call.account, next.credentials));
      if Rotates(pc.row, next) {
        past := past.(retired := past.retired + {(pc.call.account, pc.row.credentials.refreshToken)});
      }
    }

    /** Whatever tokens the answer brings, as long as there is an access token. */
    method ReceiveAnswer(t: Thread, token: TokenResponse, ghost s0: State, ghost before: seq<Event>)
      returns (ghost run: seq<Event>)
      requires Runs.Exec(Step, s0, before) == Some(Abs())
      requires t in threads && threads[t].InFlight?
      requires token.accessToken != ""
      modifies this`threads, this`past
      ensures run == before + [Accept(t, token)] && Runs.Exec(Step, s0, run) == Some(Abs())
      ensures t in threads && threads[t].call == old(threads[t]).call && threads[t].Accepted?
      ensures threads[t].row == old(threads[t]).row && Carries(threads[t].row, token, threads[t].next)
    {
      ghost var s := Abs();
      TakeAnswer(t, token);
      run := Runs.Extended(Step, s0, before, s, Accept(t, token), Abs());
    }

    /** The credentials overwritten with the answer. */
    method TakeAnswer(t: Thread, token: TokenResponse)
      requires t in threads && threads[t].InFlight? && token.accessToken != ""
      modifies this`threads, this`past
      ensures AcceptStep(old(Abs()), t, token) == Some(Abs())
      ensures t in threads && threads[t].Accepted? && threads[t].call == old(threads[t]).call
      ensures threads[t].row == old(threads[t]).row && Carries(threads[t].row, token, threads[t].next)
    {
      var pc := threads[t];
      var next := Overwrite(pc, token);
      NoteAnswer(pc, token, next);
      threads := threads[t := Accepted(pc.call, pc.mutex, pc.row, next)];
    }

    /** A row update that fails. */
    method FailToStore(t: Thread, ghost s0: State, ghost before: seq<Event>) returns (ghost run: seq<Event>)
      requires Runs.Exec(Step, s0, before) == Some(Abs())
      requires t in threads && threads[t].Accepted?
      modifies this`threads, this`past
      ensures run == before + [Store(t, false)] && Runs.Exec(Step, s0, run) == Some(Abs())
      ensures t in threads && threads[t] == Unlocking(old(threads[t].call), old(threads[t].mutex), Err(NotStored))
    {
      ghost var s := Abs();
      var pc := threads[t];
      var x := pc.call.account;
      past := past.(failed := past.failed + {x}, stale := if Rotates(pc.row, pc.next) then past.stale + {x} else past.stale);
      threads := threads[t := Unlocking(pc.call, pc.mutex, Err(NotStored))];
      run := Runs.Extended(Step, s0, before, s, Store(t, false), Abs());
    }

    /** UpdateSubscriptionCredentials */
    method StoreRow(t: Thread, dbOk: bool, ghost s0: State, ghost before: seq<Event>)
      returns (result: Result<Credentials, Failure>, ghost run: seq<Event>)
      requires Runs.Exec(Step, s0, before) == Some(Abs())
      requires t in threads && threads[t].Accepted?
      modifies this`threads, this`rows, this`past
      ensures run == before + [Store(t, dbOk)] && Runs.Exec(Step, s0, run) == Some(Abs())
      ensures t in threads && threads[t].call == old(threads[t]).call && threads[t].Unlocking? && threads[t].result == result
      ensures var x := old(threads[t]).call.account;
              if dbOk && x in old(rows) then rows == old(rows)[x := old(threads[t]).next] && result == Ok(old(threads[t]).next.credentials)
              else rows == old(rows) && result == Err(if dbOk then NotFound else NotStored)
    {
      if !dbOk {
        run := FailToStore(t, s0, before);
        result := Err(NotStored);
      } else {
        ghost var s := Abs();
        result := WriteRow(t);
        run := Runs.Extended(Step, s0, before, s, Store(t, true), Abs());
      }
    }

    /** The UPDATE itself, which may find no row any more. */
    method WriteRow(t: Thread) returns (result: Result<Credentials, Failure>)
      requires t in threads && threads[t].Accepted?
      modifies this`threads, this`rows, this`past
      ensures StoreStep(old(Abs()), t, true) == Some(Abs())
      ensures t in threads && threads[t] == Unlocking(old(threads[t]).call, old(threads[t]).mutex, result)
      ensures var x := old(threads[t]).call.account;
              if x in old(rows) then rows == old(rows)[x := old(threads[t]).next] && result == Ok(old(threads[t]).next.credentials)
              else rows == old(rows) && result == Err(NotFound)
    {
      var pc := threads[t];
      var x := pc.call.account;
      if x in rows {
        rows := rows[x := pc.next];
        past := past.(stale := if Rotates(pc.row, pc.next) then past.stale - {x} else past.stale,
                      log := past.log + [Stored(t, x, pc.call.force, pc.call.original,
                                                pc.row.credentials.accessToken, pc.next.credentials.accessToken)]);
        result := Ok(pc.next.credentials);
      } else {
        result := Err(NotFound);
      }
      threads := threads[t := Unlocking(pc.call, pc.mutex, result)];
    }

    method UnlockMutex(t: Thread, ghost s0: State, ghost before: seq<Event>)
      returns (ghost run: seq<Event>)
      requires Runs.Exec(Step, s0, before) == Some(Abs())
      requires t in threads && threads[t].Unlocking?
      modifies this`threads, this`held
      ensures run == before + [Unlock(t)] && Runs.Exec(Step, s0, run) == Some(Abs())
      ensures t in threads && threads[t] == Returned(old(threads[t]).call, old(threads[t]).result)
    {
      ghost var s := Abs();
      var pc := threads[t];
      held := held - {pc.mutex};
      threads := threads[t := Returned(pc.call, pc.result)];
      run := Runs.Extended(Step, s0, before, s, Unlock(t), Abs());
    }

    /** Sends the refresh token and takes in the answer. */
    method Exchange(t: Thread, answer: Option<TokenResponse>, others: int -> seq<Event>, ghost s0: State, ghost before: seq<Event>)
      returns (accepted: bool, ghost run: seq<Event>)
      requires Runs.Exec(Step, s0, before) == Some(Abs())
      requires t in threads && threads[t].Ready?
      modifies this
      ensures Runs.Exec(Step, s0, run) == Some(Abs())
      ensures t in threads && threads[t].call == old(threads[t].call)
      ensures accepted <==> answer.Some? && answer.value.accessToken != ""
      ensures Requests(run, t) == Requests(before, t) + 1
      ensures Runs.Undisturbed(others) ==> rows == old(rows)
      ensures accepted ==> threads[t].Accepted? && Carries(old(threads[t]).row, answer.value, threads[t].next)
      ensures if accepted then threads[t].Accepted? else threads[t].Unlocking? && threads[t].result == Err(Refused)
    {
      run := SendRequest(t, s0, before);
      run := Yield(t, others(4), s0, run);
      accepted := answer.Some? && answer.value.accessToken != "";
      if accepted {
        run := ReceiveAnswer(t, answer.value, s0, run);
      } else {
        run := ReceiveRefusal(t, s0, run);
      }
    }

    /** A thread that has to refresh: one exchange, then one row update. */
    method ExchangeAndStore(t: Thread, w: World, others: int -> seq<Event>, ghost s0: State, ghost before: seq<Event>)
      returns (result: Result<Credentials, Failure>, ghost run: seq<Event>)
      requires Runs.Exec(Step, s0, before) == Some(Abs())
      requires t in threads && threads[t].Ready?
      modifies this
      ensures Runs.Exec(Step, s0, run) == Some(Abs())
      ensures t in threads && threads[t].Unlocking? && threads[t].result == result && threads[t].call == old(threads[t].call)
      ensures Requests(run, t) == Requests(before, t) + 1
      ensures !Accepts(w.answer) ==> result == Err(Refused) && (Runs.Undisturbed(others) ==> rows == old(rows))
      ensures Accepts(w.answer) && !w.dbOk ==> result == Err(NotStored) && (Runs.Undisturbed(others) ==> rows == old(rows))
      ensures var x := old(threads[t]).call.account;
              Runs.Undisturbed(others) && Accepts(w.answer) && w.dbOk && x in old(rows) ==>
                && x in rows && rows == old(rows)[x := rows[x]] && result == Ok(rows[x].credentials)
                && Carries(old(threads[t]).row, w.answer.value, rows[x])
    {
      run := Yield(t, others(3), s0, before);
      var accepted;
      accepted, run := Exchange(t, w.answer, others, s0, run);
      if !accepted { return Err(Refused), run; }
      run := Yield(t, others(5), s0, run);
      result, run := StoreRow(t, w.dbOk, s0, run);
    }

    /** The row says refresh: a client is needed first. */
    method Refresh(t: Thread, w: World, others: int -> seq<Event>, ghost s0: State, ghost before: seq<Event>)
      returns (result: Result<Credentials, Failure>, ghost run: seq<Event>)
      requires Runs.Exec(Step, s0, before) == Some(Abs())
      requires t in threads && threads[t].Ready?
      modifies this
      ensures Runs.Exec(Step, s0, run) == Some(Abs())
      ensures t in threads && threads[t].Unlocking? && threads[t].result == result && threads[t].call == old(threads[t].call)
      ensures 0 <= Requests(run, t) - Requests(before, t) <= 1
      ensures var pc := old(threads[t]); var x := pc.call.account;
              Runs.Undisturbed(others) && x in old(rows) && old(rows)[x] == pc.row && pc.row.credentials.refreshToken != "" ==>
                RefreshOutcome(x, w, old(rows), rows, Requests(run, t) - Requests(before, t), result)
    {
      if w.clientOk {
        result, run := ExchangeAndStore(t, w, others, s0, before);
      } else {
        run := FailToBuildClient(t, s0, before);
        result := Err(NoClient);
      }
    }

    /** The part of the call that runs under the mutex, up to the deferred unlock. */
    method UnderLock(t: Thread, w: World, others: int -> seq<Event>, ghost s0: State, ghost before: seq<Event>)
      returns (result: Result<Credentials, Failure>, ghost run: seq<Event>)
      requires Runs.Exec(Step, s0, before) == Some(Abs())
      requires t in threads && threads[t].Locked?
      modifies this
      ensures Runs.Exec(Step, s0, run) == Some(Abs())
      ensures t in threads && threads[t].Unlocking? && threads[t].result == result && threads[t].call == old(threads[t].call)
      ensures 0 <= Requests(run, t) - Requests(before, t) <= 1
      ensures Runs.Undisturbed(others) ==>
                LockedOutcome(old(threads[t]).call, w, old(rows), rows, Requests(run, t) - Requests(before, t), result)
    {
      run := Yield(t, others(2), s0, before);
      if !w.readOk {
        run := FailToRead(t, s0, run);
        return Err(NotRead), run;
      }
      var done;
      done, run := ReadAgain(t, w.now, s0, run);
      if done.Some? { return done.value, run; }
      result, run := Refresh(t, w, others, s0, run);
    }

    /** The first look, without the mutex, at the row the caller came with. */
    method Enter(t: Thread, account: Account, snapshot: Row, force: bool, now: int) returns (early: bool, ghost run: seq<Event>)
      requires t !in threads && account in kinds && snapshot.credentials.accessToken in past.issued
      modifies this`threads
      ensures Runs.Exec(Step, old(Abs()), run) == Some(Abs()) && t in threads
      ensures var call := Call(account, kinds[account], snapshot.credentials.accessToken, force);
              threads[t] == if early then Returned(call, Ok(snapshot.credentials)) else WantMutex(call)
      ensures Requests(run, t) == 0
      ensures early <==> !kinds[account].oauth || (!force && (snapshot.expiresAt.None? || snapshot.expiresAt.value - now >
                           if kinds[account].provider == Grok then 60_000_000_000 else 600_000_000_000))
    {
      ghost var s0 := Abs();
      var call := Call(account, kinds[account], snapshot.credentials.accessToken, force);
      early := !call.kind.oauth || (!force && NotDue(snapshot.expiresAt, call.kind.provider, now));
      threads := threads[t := if early then Returned(call, Ok(snapshot.credentials)) else WantMutex(call)];
      run := Runs.Extended(Step, s0, [], s0, Start(t, account, snapshot, force, now), Abs());
    }

    /** The first look and, unless that was all, the part under the mutex. */
    method Perform(t: Thread, account: Account, snapshot: Row, force: bool, w: World, others: int -> seq<Event>)
      returns (result: Option<Result<Credentials, Failure>>, ghost run: seq<Event>)
      requires t !in threads && account in kinds && snapshot.credentials.accessToken in past.issued
      modifies this
      ensures Runs.Exec(Step, old(Abs()), run) == Some(Abs())
      ensures var call := Call(account, old(kinds[account]), snapshot.credentials.accessToken, force);
              result.Some? ==> t in threads && threads[t] == Returned(call, result.value)
      ensures Requests(run, t) <= 1
      ensures var kind := old(kinds[account]);
              !kind.oauth || (!force && (snapshot.expiresAt.None? || snapshot.expiresAt.value - w.checkedAt >
                               if kind.provider == Grok then 60_000_000_000 else 600_000_000_000)) ==>
                && result == Some(Ok(snapshot.credentials)) && Requests(run, t) == 0
                && rows == old(rows) && locks == old(locks) && held == old(held)
      ensures var kind := old(kinds[account]);
              Runs.Undisturbed(others) && kind.oauth && (force || (snapshot.expiresAt.Some? && snapshot.expiresAt.value - w.checkedAt <=
                                if kind.provider == Grok then 60_000_000_000 else 600_000_000_000)) ==>
                && (result.Some? <==> MutexFree(old(Abs()), account))
                && (result.Some? ==> LockedOutcome(Call(account, kind, snapshot.credentials.accessToken, force), w,
                                                   old(rows), rows, Requests(run, t), result.value))
    {
      ghost var s0 := Abs();
      var early;
      early, run := Enter(t, account, snapshot, force, w.checkedAt);
      if early {
        result := Some(Ok(snapshot.credentials));
      } else {
        result, run := Guarded(t, w, others, s0, run);
      }
    }

    /**
     The whole call of thread `t`. `w` is what it is answered; `others` lists what other threads do at each point where they can
     get in; the call gives up (None) only where Lock would still be waiting. A token with enough time left is handed
     out as it is; any other call asks for the mutex, looks again, and sends at most one request.
     */
    method CredentialsForRequest(t: Thread, account: Account, snapshot: Row, force: bool, w: World, others: int -> seq<Event>)
      returns (result: Option<Result<Credentials, Failure>>, ghost run: seq<Event>)
      requires Inv(Abs()) && t !in threads && account in kinds && snapshot.credentials.accessToken in past.issued
      modifies this
      ensures Runs.Exec(Step, old(Abs()), run) == Some(Abs()) && Inv(Abs())
      ensures result.Some? ==> t in threads && threads[t].Returned? && threads[t].outcome == result.value
      ensures result.Some? && result.value.Ok? && force && old(kinds[account]).oauth && !past.repeated ==>
                result.value.value.accessToken != snapshot.credentials.accessToken
      ensures Requests(run, t) <= 1
      ensures var kind := old(kinds[account]);
              !kind.oauth || (!force && (snapshot.expiresAt.None? || snapshot.expiresAt.value - w.checkedAt >
                               if kind.provider == Grok then 60_000_000_000 else 600_000_000_000)) ==>
                && result == Some(Ok(snapshot.credentials)) && Requests(run, t) == 0
                && rows == old(rows) && locks == old(locks) && held == old(held)
      ensures var kind := old(kinds[account]);
              Runs.Undisturbed(others) && kind.oauth && (force || (snapshot.expiresAt.Some? && snapshot.expiresAt.value - w.checkedAt <=
                                if kind.provider == Grok then 60_000_000_000 else 600_000_000_000)) ==>
                && (result.Some? <==> MutexFree(old(Abs()), account))
                && (result.Some? ==> LockedOutcome(Call(account, kind, snapshot.credentials.accessToken, force), w,
                                                   old(rows), rows, Requests(run, t), result.value))
    {
      ghost var s0 := Abs();
      result, run := Perform(t, account, snapshot, force, w, others);
      RunKeepsInv(s0, run);
      assert result.Some? && !past.repeated ==> ResultOk(threads[t]);
    }

    /** The row goes first. */
    method DeleteRowOf(x: Account, ghost s0: State, ghost before: seq<Event>) returns (ghost run: seq<Event>)
      requires Runs.Exec(Step, s0, before) == Some(Abs()) && x in rows
      modifies this
      ensures run == before + [DeleteRow(x)] && Runs.Exec(Step, s0, run) == Some(Abs())
      ensures x !in rows && kinds == old(kinds)
    {
      ghost var s := Abs();
      rows, dropping := rows - {x}, dropping + {x};
      run := Runs.Extended(Step, s0, before, s, DeleteRow(x), Abs());
    }

    /** forgetSubscriptionRuntime: the mutex leaves the map, held or not. */
    method ForgetRuntime(x: Account, ghost s0: State, ghost before: seq<Event>) returns (ghost run: seq<Event>)
      requires Runs.Exec(Step, s0, before) == Some(Abs()) && x in dropping
      modifies this
      ensures run == before + [DropMutex(x)] && Runs.Exec(Step, s0, run) == Some(Abs())
      ensures x !in locks && rows == old(rows)
    {
      ghost var s := Abs();
      locks, dropping := locks - {x}, dropping - {x};
      run := Runs.Extended(Step, s0, before, s, DropMutex(x), Abs());
    }

    /** deleteSubscription in the handler `admin`, with `others` getting in between row and mutex. */
    method DeleteSubscription(admin: Thread, x: Account, others: seq<Event>) returns (found: bool, ghost run: seq<Event>)
      requires Inv(Abs())
      modifies this
      ensures found <==> x in old(rows)
      ensures Runs.Exec(Step, old(Abs()), run) == Some(Abs()) && Inv(Abs())
      ensures x !in rows
    {
      ghost var s0 := Abs();
      found := x in rows;
      run := [];
      if found {
        run := DeleteRowOf(x, s0, run);
        run := Yield(admin, others, s0, run);
        if x in dropping {
          run := ForgetRuntime(x, s0, run);
        }
      }
      RunKeepsInv(s0, run);
    }

    /** Asks for the mutex; `locked` is false where Lock would still be waiting. */
    method TakeMutex(t: Thread, others: int -> seq<Event>, ghost s0: State, ghost before: seq<Event>)
      returns (locked: bool, ghost run: seq<Event>)
      requires Runs.Exec(Step, s0, before) == Some(Abs())
      requires t in threads && threads[t].WantMutex?
      modifies this
      ensures Runs.Exec(Step, s0, run) == Some(Abs())
      ensures locked ==> t in threads && threads[t].Locked? && threads[t].call == old(threads[t].call)
      ensures Requests(run, t) == Requests(before, t)
      ensures Runs.Undisturbed(others) ==> rows == old(rows) && (locked <==> MutexFree(old(Abs()), old(threads[t]).call.account))
    {
      run := Yield(t, others(0), s0, before);
      var lock;
      lock, run := LoadOrStoreMutex(t, s0, run);
      run := Yield(t, others(1), s0, run);
      locked := lock !in held;
      if locked {
        run := LockMutex(t, lock, s0, run);
      }
    }

    /** From asking for the mutex to giving it back. */
    method Guarded(t: Thread, w: World, others: int -> seq<Event>, ghost s0: State, ghost before: seq<Event>)
      returns (result: Option<Result<Credentials, Failure>>, ghost run: seq<Event>)
      requires Runs.Exec(Step, s0, before) == Some(Abs())
      requires t in threads && threads[t].WantMutex?
      modifies this
      ensures Runs.Exec(Step, s0, run) == Some(Abs())
      ensures result.Some? ==> t in threads && threads[t] == Returned(old(threads[t].call), result.value)
      ensures 0 <= Requests(run, t) - Requests(before, t) <= 1
      ensures Runs.Undisturbed(others) ==> (result.Some? <==> MutexFree(old(Abs()), old(threads[t]).call.account))
      ensures Runs.Undisturbed(others) && result.Some? ==>
                LockedOutcome(old(threads[t]).call, w, old(rows), rows, Requests(run, t) - Requests(before, t), result.value)
    {
      var locked, outcome;
      locked, run := TakeMutex(t, others, s0, before);
      if !locked { return None, run; }
      outcome, run := UnderLock(t, w, others, s0, run);
      run := Yield(t, others(6), s0, run);
      run := UnlockMutex(t, s0, run);
      result := Some(outcome);
    }
  }

  lemma RunKeepsInv(s: State, run: seq<Event>)
    requires Inv(s) && Runs.Exec(Step, s, run).Some?
    ensures Inv(Runs.Exec(Step, s, run).value)
  {
    forall p, e | Inv(p) && Step(p, e).Some? ensures Inv(Step(p, e).value) { InvStep(p, e); }
    Runs.Invariant(Step, p => Inv(p), s, run);
  }
}

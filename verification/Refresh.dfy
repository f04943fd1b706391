/**
 The OAuth refresh protocol of the three providers as a state machine: one mutex per account kept in
 a concurrent map, a second look at the row under the mutex, one token request, one row update. Any
 number of threads refresh while others delete accounts, which drops the mutex from the map even
 when it is held.
 */
module Refresh {
  import opened Prelude
  import opened Credentials
  import Runs

  type Account = int
  type Thread = int
  type MutexId = int

  /** What an account id stands for, for good: ids are never used twice. */
  datatype Kind = Kind(provider: Provider, oauth: bool)

  datatype Row = Row(credentials: Credentials, expiresAt: Option<int>)

  datatype Failure = NotFound | NotRead | NoRefreshToken | NoClient | Refused | NotStored

  datatype Call = Call(account: Account, kind: Kind, original: string, force: bool)

  /** Where a thread stands in credentialsForRequest. */
  datatype Pc =
    | WantMutex(call: Call)
    | WantLock(call: Call, mutex: MutexId)
    | Locked(call: Call, mutex: MutexId)
    | Ready(call: Call, mutex: MutexId, row: Row)
    | InFlight(call: Call, mutex: MutexId, row: Row)
    | Accepted(call: Call, mutex: MutexId, row: Row, next: Row)
    | Unlocking(call: Call, mutex: MutexId, result: Result<Credentials, Failure>)
    | Returned(call: Call, outcome: Result<Credentials, Failure>)
  {
    predicate HasMutex() { !WantMutex? && !Returned? }
    predicate HoldsLock() { HasMutex() && !WantLock? }
    /** Has read the row under the mutex and still depends on it. */
    predicate UsesRow() { Ready? || InFlight? || Accepted? }
  }

  /** One completed row update. */
  datatype Stored = Stored(thread: Thread, account: Account, force: bool, original: string,
                           replaced: string, access: string)

  datatype State = State(
    clientIds: Provider -> string,             // configured client ids
    kinds: map<Account, Kind>,                 // every account ever created
    rows: map<Account, Row>,
    locks: map<Account, MutexId>,              // oauthRefreshLocks / grokRefreshLocks
    mutexes: int,                              // mutexes allocated so far
    held: map<MutexId, Thread>,
    threads: map<Thread, Pc>,
    dropping: set<Account>,                    // row deleted, mutex entry not yet dropped
    past: History)

  /** What happened so far, as far as the properties speak about it. */
  datatype History = History(
    issued: map<string, Account>,              // every token that has existed, and the account it first came to
    shared: set<string>,                       // tokens that had existed before when a created row carried them
    repeated: bool,                            // an accepted answer was not fresh
    retired: set<(Account, string)>,           // who had which refresh token replaced by an accepted answer
    stale: set<Account>,                       // last accepted replacement could not be stored
    failed: set<Account>,                      // accounts whose row update failed at least once
    resent: set<(Account, string)>,            // who sent which refresh token after anybody had it replaced
    log: seq<Stored>)

  datatype Event =
    | CreateRow(account: Account, kind: Kind, row: Row)
    | Start(t: Thread, account: Account, snapshot: Row, force: bool, now: int)
    | LoadOrStore(t: Thread)
    | Lock(t: Thread)
    | ReadRow(t: Thread, now: int)
    | ReadFailed(t: Thread)                    // the database does not answer
    | ClientFailed(t: Thread)                  // no HTTP client for the account's proxy
    | Send(t: Thread)
    | Reject(t: Thread)
    | Accept(t: Thread, token: TokenResponse)
    | Store(t: Thread, dbOk: bool)
    | Unlock(t: Thread)
    | DeleteRow(account: Account)
    | DropMutex(account: Account)

  function Skew(p: Provider): int {
    if p == Grok then 60_000_000_000 else 600_000_000_000
  }

  /** The token is not due: it has no expiry, or more than the skew is left. */
  predicate NotDue(expiresAt: Option<int>, p: Provider, now: int) {
    expiresAt.None? || expiresAt.value - now > Skew(p)
  }

  function Tokens(c: Credentials): set<string> { {c.accessToken, c.refreshToken} }

  /** The tokens of `c` come to account `x`; a token that has existed before stays with its first account. */
  function Issue(issued: map<string, Account>, x: Account, c: Credentials): (r: map<string, Account>)
    ensures r.Keys == issued.Keys + Tokens(c)
    ensures forall token :: token in issued ==> r[token] == issued[token]
    ensures forall token :: token in Tokens(c) && token !in issued ==> r[token] == x
  {
    (map token | token in Tokens(c) :: x) + issued
  }

  /** The tokens of `c` that have existed before. */
  function KnownTokens(issued: map<string, Account>, c: Credentials): set<string> { Tokens(c) * issued.Keys - {""} }

  /** Some account had this refresh token replaced. */
  predicate WasRetired(h: History, token: string) { exists p :: p in h.retired && p.1 == token }

  /** Another account than `x` had it replaced. */
  predicate RetiredElsewhere(h: History, x: Account, token: string) {
    exists p :: p in h.retired && p.0 != x && p.1 == token
  }

  /** A well-behaved answer: a new access token, and no old refresh token except the one just sent. */
  predicate FreshAnswer(s: State, sent: string, token: TokenResponse) {
    && token.accessToken !in s.past.issued
    && (token.refreshToken == "" || token.refreshToken == sent || token.refreshToken !in s.past.issued)
    && token.refreshToken != token.accessToken
  }

  predicate Rotates(row: Row, next: Row) {
    next.credentials.refreshToken != row.credentials.refreshToken
  }

  function FreshRow(s: State, pc: Pc, token: TokenResponse): Row
    requires pc.InFlight?
  {
    var p := pc.call.kind.provider;
    var clientID := FirstNonEmpty(pc.row.credentials.clientID, s.clientIds(p));
    Row(Refreshed(p, pc.row.credentials, token, clientID), token.expiresAt)
  }

  /** The history after an accepted answer. */
  function Answer(h: History, x: Account, row: Row, next: Row, wasFresh: bool): History {
    h.(issued := Issue(h.issued, x, next.credentials), repeated := h.repeated || !wasFresh,
       retired := if Rotates(row, next) then h.retired + {(x, row.credentials.refreshToken)} else h.retired)
  }

  /** What a thread does after reading the row under the mutex. */
  function AfterRead(s: State, call: Call, m: MutexId, now: int): Pc {
    if call.account !in s.rows then Unlocking(call, m, Err(NotFound))
    else
      var row := s.rows[call.account];
      if call.force && row.credentials.accessToken != call.original then
        Unlocking(call, m, Ok(row.credentials))
      else if !call.force && NotDue(row.expiresAt, call.kind.provider, now) then
        Unlocking(call, m, Ok(row.credentials))
      else if row.credentials.refreshToken == "" then
        Unlocking(call, m, Err(NoRefreshToken))
      else Ready(call, m, row)
  }

  /** Any answer with an access token. */
  function AcceptStep(s: State, t: Thread, token: TokenResponse): Option<State> {
    if t !in s.threads || !s.threads[t].InFlight? || token.accessToken == "" then None
    else
      var pc := s.threads[t];
      var sent := pc.row.credentials.refreshToken;
      var next := FreshRow(s, pc, token);
      Some(s.(threads := s.threads[t := Accepted(pc.call, pc.mutex, pc.row, next)],
              past := Answer(s.past, pc.call.account, pc.row, next, FreshAnswer(s, sent, token))))
  }

  /** UpdateSubscriptionCredentials: fails, finds no row, or writes the next one. */
  function StoreStep(s: State, t: Thread, dbOk: bool): Option<State> {
    if t !in s.threads || !s.threads[t].Accepted? then None
    else
      var pc := s.threads[t];
      var x := pc.call.account;
      if !dbOk then
        Some(s.(threads := s.threads[t := Unlocking(pc.call, pc.mutex, Err(NotStored))],
                past := s.past.(failed := s.past.failed + {x},
                                stale := if Rotates(pc.row, pc.next) then s.past.stale + {x} else s.past.stale)))
      else if x !in s.rows then
        Some(s.(threads := s.threads[t := Unlocking(pc.call, pc.mutex, Err(NotFound))]))
      else
        Some(s.(threads := s.threads[t := Unlocking(pc.call, pc.mutex, Ok(pc.next.credentials))],
                rows := s.rows[x := pc.next],
                past := s.past.(stale := if Rotates(pc.row, pc.next) then s.past.stale - {x} else s.past.stale,
                                log := s.past.log + [Stored(t, x, pc.call.force, pc.call.original,
                                                            pc.row.credentials.accessToken,
                                                            pc.next.credentials.accessToken)])))
  }

  function Step(s: State, e: Event): Option<State> {
    match e
    case CreateRow(x, kind, row) =>
      if x in s.kinds then None
      else Some(s.(kinds := s.kinds[x := kind], rows := s.rows[x := row],
                   past := s.past.(issued := Issue(s.past.issued, x, row.credentials),
                                   shared := s.past.shared + KnownTokens(s.past.issued, row.credentials))))
    case Start(t, x, snapshot, force, now) =>
      if t in s.threads || x !in s.kinds || snapshot.credentials.accessToken !in s.past.issued then None
      else
        var call := Call(x, s.kinds[x], snapshot.credentials.accessToken, force);
        var pc := if !call.kind.oauth || (!force && NotDue(snapshot.expiresAt, call.kind.provider, now))
                  then Returned(call, Ok(snapshot.credentials)) else WantMutex(call);
        Some(s.(threads := s.threads[t := pc]))
    case LoadOrStore(t) =>
      if t !in s.threads || !s.threads[t].WantMutex? then None
      else
        var call := s.threads[t].call;
        if call.account in s.locks then
          Some(s.(threads := s.threads[t := WantLock(call, s.locks[call.account])]))
        else
          Some(s.(threads := s.threads[t := WantLock(call, s.mutexes)],
                  locks := s.locks[call.account := s.mutexes], mutexes := s.mutexes + 1))
    case Lock(t) =>
      if t !in s.threads || !s.threads[t].WantLock? || s.threads[t].mutex in s.held then None
      else
        var pc := s.threads[t];
        Some(s.(held := s.held[pc.mutex := t], threads := s.threads[t := Locked(pc.call, pc.mutex)]))
    case ReadRow(t, now) =>
      if t !in s.threads || !s.threads[t].Locked? then None
      else
        var pc := s.threads[t];
        Some(s.(threads := s.threads[t := AfterRead(s, pc.call, pc.mutex, now)]))
    case ReadFailed(t) =>
      if t !in s.threads || !s.threads[t].Locked? then None
      else
        var pc := s.threads[t];
        Some(s.(threads := s.threads[t := Unlocking(pc.call, pc.mutex, Err(NotRead))]))
    case ClientFailed(t) =>
      if t !in s.threads || !s.threads[t].Ready? then None
      else
        var pc := s.threads[t];
        Some(s.(threads := s.threads[t := Unlocking(pc.call, pc.mutex, Err(NoClient))]))
    case Send(t) =>
      if t !in s.threads || !s.threads[t].Ready? then None
      else
        var pc := s.threads[t];
        var x := pc.call.account;
        Some(s.(threads := s.threads[t := InFlight(pc.call, pc.mutex, pc.row)],
                past := s.past.(resent := if WasRetired(s.past, pc.row.credentials.refreshToken)
                                          then s.past.resent + {(x, pc.row.credentials.refreshToken)} else s.past.resent)))
    case Reject(t) =>
      if t !in s.threads || !s.threads[t].InFlight? then None
      else
        var pc := s.threads[t];
        Some(s.(threads := s.threads[t := Unlocking(pc.call, pc.mutex, Err(Refused))]))
    case Accept(t, token) => AcceptStep(s, t, token)
    case Store(t, dbOk) => StoreStep(s, t, dbOk)
    case Unlock(t) =>
      if t !in s.threads || !s.threads[t].Unlocking? then None
      else
        var pc := s.threads[t];
        Some(s.(held := s.held - {pc.mutex}, threads := s.threads[t := Returned(pc.call, pc.result)]))
    case DeleteRow(x) =>
      if x !in s.rows then None
      else Some(s.(rows := s.rows - {x}, dropping := s.dropping + {x}))
    case DropMutex(x) =>
      if x !in s.dropping then None
      else Some(s.(locks := s.locks - {x}, dropping := s.dropping - {x}))
  }

  function Init(clientIds: Provider -> string): State {
    State(clientIds, map[], map[], map[], 0, map[], map[], {}, History(map[], {}, false, {}, {}, {}, {}, []))
  }

  // ---- The invariant ----

  /** The thread that holds the account's installed mutex has an accepted answer it has not stored yet. */
  ghost predicate Updating(s: State, x: Account) {
    && x in s.locks && s.locks[x] in s.held && s.held[s.locks[x]] in s.threads
    && var pc := s.threads[s.held[s.locks[x]]]; pc.Accepted? && pc.call.account == x
  }

  ghost predicate IdsOk(kinds: map<Account, Kind>, rows: map<Account, Row>, dropping: set<Account>) {
    && rows.Keys <= kinds.Keys
    && dropping <= kinds.Keys
    && dropping !! rows.Keys
  }

  /** Lock holders are recorded; as long as the account has a row, its threads share the installed mutex. */
  ghost predicate MutexOk(s: State, t: Thread)
    requires t in s.threads
  {
    var pc := s.threads[t];
    && pc.call.account in s.kinds
    && (pc.HoldsLock() ==> pc.mutex in s.held && s.held[pc.mutex] == t)
    && (pc.HasMutex() && pc.call.account in s.rows ==>
          pc.call.account in s.locks && s.locks[pc.call.account] == pc.mutex)
  }

  /** Two threads between reading the row and storing or giving up are never on the same account. */
  ghost predicate Exclusive(s: State, t: Thread, u: Thread)
    requires t in s.threads && u in s.threads
  {
    && s.threads[t].UsesRow() && s.threads[u].UsesRow()
    && s.threads[t].call.account == s.threads[u].call.account
    ==> t == u
  }

  ghost predicate NeverLogged(log: seq<Stored>, x: Account, access: string) {
    forall i :: 0 <= i < |log| && log[i].account == x ==> log[i].replaced != access
  }

  /** A thread that uses a row still sees the row as it is. */
  ghost predicate RowSeenOk(s: State, t: Thread)
    requires t in s.threads
  {
    var pc := s.threads[t];
    && pc.call.original in s.past.issued
    && (pc.UsesRow() ==>
          var x, rt := pc.call.account, pc.row.credentials.refreshToken;
          && pc.row.credentials.accessToken in s.past.issued && rt in s.past.issued && rt != ""
          && (x in s.rows ==> s.rows[x] == pc.row)
          && (pc.call.force ==> pc.row.credentials.accessToken == pc.call.original)
          && (pc.Accepted? ==> AnswerOk(s, pc))
          && (!pc.Accepted? ==> ((x, rt) in s.past.retired <==> x in s.past.stale)))
  }

  ghost predicate AnswerOk(s: State, pc: Pc)
    requires pc.Accepted?
  {
    var x, access, rt := pc.call.account, pc.next.credentials.accessToken, pc.next.credentials.refreshToken;
    && access in s.past.issued && rt in s.past.issued
    && access != pc.row.credentials.accessToken && access != pc.call.original
    && NeverLogged(s.past.log, x, access)
    && (if Rotates(pc.row, pc.next) then (x, rt) !in s.past.retired && (x, pc.row.credentials.refreshToken) in s.past.retired
        else ((x, rt) in s.past.retired <==> x in s.past.stale))
  }

  /** A row's refresh token has been replaced exactly when the last accepted replacement failed to be stored. */
  ghost predicate RowOk(s: State, x: Account)
    requires x in s.rows
  {
    var c := s.rows[x].credentials;
    && c.accessToken in s.past.issued && c.refreshToken in s.past.issued
    && NeverLogged(s.past.log, x, c.accessToken)
    && (!Updating(s, x) ==> ((x, c.refreshToken) in s.past.retired <==> x in s.past.stale))
  }

  ghost predicate LogOk(log: seq<Stored>, issued: map<string, Account>, kinds: map<Account, Kind>) {
    && (forall i :: 0 <= i < |log| ==>
          && log[i].replaced in issued && log[i].account in kinds
          && log[i].access != log[i].original
          && (log[i].force ==> log[i].replaced == log[i].original))
    && (forall i, j :: 0 <= i < j < |log| && log[i].account == log[j].account ==>
          log[i].replaced != log[j].replaced)
  }

  ghost predicate HistoryOk(s: State) {
    && (forall p :: p in s.past.retired ==> p.0 in s.kinds && p.1 in s.past.issued)
    && s.past.stale <= s.past.failed && s.past.failed <= s.kinds.Keys
    && LogOk(s.past.log, s.past.issued, s.kinds)
  }

  /** A forced OAuth call that succeeds hands out another access token than the caller started from. */
  ghost predicate ResultOk(pc: Pc) {
    match pc
    case Unlocking(call, _, Ok(c)) => call.force ==> c.accessToken != call.original
    case Returned(call, Ok(c)) => call.force && call.kind.oauth ==> c.accessToken != call.original
    case _ => true
  }

  /** A retired token goes out only for accounts with a failed update, or after another account retired it. */
  ghost predicate ResentOk(h: History) {
    forall p :: p in h.resent ==> p.0 in h.failed || RetiredElsewhere(h, p.0, p.1)
  }

  /** Mutual exclusion, whatever the provider answers. */
  ghost predicate MutualExclusion(s: State) {
    && IdsOk(s.kinds, s.rows, s.dropping)
    && (forall t :: t in s.threads ==> MutexOk(s, t))
    && (forall t, u :: t in s.threads && u in s.threads ==> Exclusive(s, t, u))
  }

  /** What fresh answers add. */
  ghost predicate TokensOk(s: State) {
    && (forall t :: t in s.threads ==> RowSeenOk(s, t) && ResultOk(s.threads[t]))
    && (forall x :: x in s.rows ==> RowOk(s, x))
    && HistoryOk(s) && ResentOk(s.past)
  }

  /** The token belongs to account `x`, or was carried by more than one created row. */
  ghost predicate Owns(h: History, x: Account, token: string) {
    token != "" ==> token in h.shared || (token in h.issued && h.issued[token] == x)
  }

  ghost predicate OwnsTokens(h: History, x: Account, c: Credentials) {
    Owns(h, x, c.accessToken) && Owns(h, x, c.refreshToken)
  }

  ghost predicate ThreadOwns(s: State, t: Thread)
    requires t in s.threads
  {
    var pc := s.threads[t];
    && (pc.UsesRow() ==> OwnsTokens(s.past, pc.call.account, pc.row.credentials) && pc.row.credentials.refreshToken != "")
    && (pc.Accepted? ==> OwnsTokens(s.past, pc.call.account, pc.next.credentials))
  }

  ghost predicate PastOwns(h: History) {
    && (forall p :: p in h.retired ==> p.1 != "" && Owns(h, p.0, p.1))
    && (forall p :: p in h.resent ==> p.1 != "" && Owns(h, p.0, p.1))
    && (forall i :: 0 <= i < |h.log| ==> Owns(h, h.log[i].account, h.log[i].replaced))
  }

  /** And: no token that is not shared moves from one account to another. */
  ghost predicate OwnersOk(s: State) {
    && (forall t :: t in s.threads ==> ThreadOwns(s, t))
    && (forall x :: x in s.rows ==> OwnsTokens(s.past, x, s.rows[x].credentials))
    && PastOwns(s.past)
  }

  ghost predicate Inv(s: State) {
    MutualExclusion(s) && (!s.past.repeated ==> TokensOk(s) && OwnersOk(s))
  }

  /** The thread an event belongs to; deletions and creations belong to no thread of the protocol. */
  predicate By(e: Event, t: Thread) {
    !e.CreateRow? && !e.DeleteRow? && !e.DropMutex? && e.t == t
  }

  ghost predicate ActorHasMutex(s: State, e: Event) {
    e.CreateRow? || e.DeleteRow? || e.DropMutex? || (e.t in s.threads ==> MutexOk(s, e.t))
  }

  /** What is known about the thread that acts, and about the answer if it accepts one. */
  ghost predicate ActorOk(s: State, e: Event) {
    e.CreateRow? || e.DeleteRow? || e.DropMutex? ||
    (e.t in s.threads ==> MutexOk(s, e.t) && RowSeenOk(s, e.t) && ResultOk(s.threads[e.t])
                          && (e.Accept? && s.threads[e.t].InFlight? ==> FreshAnswer(s, s.threads[e.t].row.credentials.refreshToken, e.token)))
  }

  lemma MutexStep(s: State, e: Event, u: Thread)
    requires Step(s, e).Some? && u in Step(s, e).value.threads
    requires IdsOk(s.kinds, s.rows, s.dropping) && ActorHasMutex(s, e)
    requires u in s.threads ==> MutexOk(s, u)
    ensures MutexOk(Step(s, e).value, u)
  {
    if e.Accept? {
      AcceptKeepsMutex(s, e, u);
    } else if e.Store? {
      StoreKeepsMutex(s, e, u);
    } else if e.ReadRow? || e.Send? {
      RequestKeepsMutex(s, e, u);
    }
  }

  /** From the row to its update a thread only moves itself. */
  lemma RequestKeepsMutex(s: State, e: Event, u: Thread)
    requires e.ReadRow? || e.Send?
    requires Step(s, e).Some? && u in s.threads && MutexOk(s, u) && ActorHasMutex(s, e)
    ensures MutexOk(Step(s, e).value, u)
  {
  }

  lemma AcceptKeepsMutex(s: State, e: Event, u: Thread)
    requires e.Accept? && Step(s, e).Some? && u in s.threads && MutexOk(s, u) && ActorHasMutex(s, e)
    ensures MutexOk(Step(s, e).value, u)
  {
  }

  lemma StoreKeepsMutex(s: State, e: Event, u: Thread)
    requires e.Store? && Step(s, e).Some? && u in s.threads && MutexOk(s, u) && ActorHasMutex(s, e)
    ensures MutexOk(Step(s, e).value, u)
  {
  }

  /** Only reading the row under the mutex brings a thread among those that use a row. */
  lemma UsesRowBefore(s: State, e: Event, u: Thread)
    requires Step(s, e).Some? && u in Step(s, e).value.threads && Step(s, e).value.threads[u].UsesRow()
    ensures u in s.threads && s.threads[u].call == Step(s, e).value.threads[u].call
    ensures s.threads[u].UsesRow() || (e == ReadRow(u, e.now) && s.threads[u].Locked? && s.threads[u].call.account in s.rows)
  {
  }

  lemma ExclusiveStep(s: State, e: Event, u: Thread, v: Thread)
    requires Step(s, e).Some? && u in Step(s, e).value.threads && v in Step(s, e).value.threads
    requires u in s.threads ==> MutexOk(s, u)
    requires v in s.threads ==> MutexOk(s, v)
    requires u in s.threads && v in s.threads ==> Exclusive(s, u, v)
    ensures Exclusive(Step(s, e).value, u, v)
  {
    var s' := Step(s, e).value;
    if s'.threads[u].UsesRow() && s'.threads[v].UsesRow() {
      UsesRowBefore(s, e, u);
      UsesRowBefore(s, e, v);
    }
  }

  lemma AcceptOwn(s: State, t: Thread, token: TokenResponse)
    requires Step(s, Accept(t, token)).Some?
    requires RowSeenOk(s, t) && HistoryOk(s) && FreshAnswer(s, s.threads[t].row.credentials.refreshToken, token)
    ensures RowSeenOk(Step(s, Accept(t, token)).value, t)
  {
    var pc := s.threads[t];
    RefreshedTokens(pc.call.kind.provider, pc.row.credentials, token,
                    FirstNonEmpty(pc.row.credentials.clientID, s.clientIds(pc.call.kind.provider)));
    var next := FreshRow(s, pc, token).credentials;
    assert LogOk(s.past.log, s.past.issued, s.kinds);
    assert NeverLogged(s.past.log, pc.call.account, next.accessToken);
    if next.refreshToken != pc.row.credentials.refreshToken {
      assert next.refreshToken !in s.past.issued;
      assert (pc.call.account, next.refreshToken) !in s.past.retired;
    }
  }

  /** The thread that acts. */
  lemma OwnStep(s: State, e: Event)
    requires Step(s, e).Some? && !e.CreateRow? && !e.DeleteRow? && !e.DropMutex?
    requires ActorOk(s, e) && HistoryOk(s)
    requires e.t in s.threads && s.threads[e.t].call.account in s.rows ==> RowOk(s, s.threads[e.t].call.account)
    ensures RowSeenOk(Step(s, e).value, e.t) && ResultOk(Step(s, e).value.threads[e.t])
  {
    if e.Accept? {
      AcceptOwn(s, e.t, e.token);
    } else if e.Store? {
      StoreOwn(s, e.t, e.dbOk);
    } else if e.ReadRow? {
      ReadOwn(s, e.t, e.now);
    } else {
      MoveOwn(s, e);
    }
  }

  lemma StoreOwn(s: State, t: Thread, dbOk: bool)
    requires Step(s, Store(t, dbOk)).Some? && RowSeenOk(s, t)
    ensures RowSeenOk(Step(s, Store(t, dbOk)).value, t) && ResultOk(Step(s, Store(t, dbOk)).value.threads[t])
  {
  }

  lemma ReadOwn(s: State, t: Thread, now: int)
    requires Step(s, ReadRow(t, now)).Some? && RowSeenOk(s, t) && MutexOk(s, t)
    requires s.threads[t].call.account in s.rows ==> RowOk(s, s.threads[t].call.account)
    ensures RowSeenOk(Step(s, ReadRow(t, now)).value, t) && ResultOk(Step(s, ReadRow(t, now)).value.threads[t])
  {
  }

  /** The actions that neither read nor write the row. */
  lemma MoveOwn(s: State, e: Event)
    requires Step(s, e).Some? && !e.CreateRow? && !e.DeleteRow? && !e.DropMutex? && !e.Accept? && !e.Store? && !e.ReadRow?
    requires e.t in s.threads ==> RowSeenOk(s, e.t) && ResultOk(s.threads[e.t])
    ensures RowSeenOk(Step(s, e).value, e.t) && ResultOk(Step(s, e).value.threads[e.t])
  {
  }

  /** Every other thread, when a thread stores its answer. */
  lemma StoreOther(s: State, t: Thread, dbOk: bool, u: Thread)
    requires Step(s, Store(t, dbOk)).Some? && u in s.threads && t != u
    requires MutexOk(s, u) && RowSeenOk(s, u) && RowSeenOk(s, t) && Exclusive(s, t, u)
    ensures RowSeenOk(Step(s, Store(t, dbOk)).value, u)
  {
    var s' := Step(s, Store(t, dbOk)).value;
    if s.threads[u].UsesRow() {
      assert s.threads[u].call.account != s.threads[t].call.account;
      if s.threads[u].Accepted? {
        assert NeverLogged(s'.past.log, s.threads[u].call.account, s.threads[u].next.credentials.accessToken);
      }
    }
  }

  lemma AcceptOther(s: State, t: Thread, token: TokenResponse, u: Thread)
    requires Step(s, Accept(t, token)).Some? && u in s.threads && t != u
    requires RowSeenOk(s, u) && Exclusive(s, t, u)
    ensures RowSeenOk(Step(s, Accept(t, token)).value, u)
  {
  }

  /** Every other thread. */
  lemma OtherStep(s: State, e: Event, u: Thread)
    requires Step(s, e).Some? && u in s.threads && !By(e, u)
    requires MutexOk(s, u) && RowSeenOk(s, u)
    requires ActorOk(s, e)
    requires !e.CreateRow? && !e.DeleteRow? && !e.DropMutex? && e.t in s.threads ==> Exclusive(s, e.t, u)
    ensures u in Step(s, e).value.threads
    ensures RowSeenOk(Step(s, e).value, u) && Step(s, e).value.threads[u] == s.threads[u]
  {
    match e
    case Accept(t, token) => AcceptOther(s, t, token, u);
    case Store(t, dbOk) => StoreOther(s, t, dbOk, u);
    case CreateRow(x, kind, row) => CreateOther(s, e, u);
    case _ => MoveOther(s, e, u);
  }

  lemma MoveOther(s: State, e: Event, u: Thread)
    requires Step(s, e).Some? && u in s.threads && !By(e, u) && RowSeenOk(s, u)
    requires !e.Accept? && !e.Store? && !e.CreateRow?
    ensures u in Step(s, e).value.threads
    ensures RowSeenOk(Step(s, e).value, u) && Step(s, e).value.threads[u] == s.threads[u]
  {
  }

  lemma CreateOther(s: State, e: Event, u: Thread)
    requires e.CreateRow? && Step(s, e).Some? && u in s.threads && MutexOk(s, u) && RowSeenOk(s, u)
    ensures RowSeenOk(Step(s, e).value, u)
  {
  }

  lemma AcceptRow(s: State, t: Thread, token: TokenResponse, x: Account)
    requires Step(s, Accept(t, token)).Some? && x in s.rows && RowOk(s, x)
    requires MutexOk(s, t) && RowSeenOk(s, t)
    ensures RowOk(Step(s, Accept(t, token)).value, x)
  {
    if s.threads[t].call.account == x {
      assert Updating(Step(s, Accept(t, token)).value, x);
    }
  }

  lemma StoreRow(s: State, t: Thread, dbOk: bool, x: Account)
    requires Step(s, Store(t, dbOk)).Some? && x in s.rows && RowOk(s, x)
    requires MutexOk(s, t) && RowSeenOk(s, t)
    ensures RowOk(Step(s, Store(t, dbOk)).value, x)
  {
  }

  lemma RowStep(s: State, e: Event, x: Account)
    requires Step(s, e).Some? && x in Step(s, e).value.rows
    requires IdsOk(s.kinds, s.rows, s.dropping) && ActorOk(s, e) && HistoryOk(s)
    requires x in s.rows ==> RowOk(s, x)
    ensures RowOk(Step(s, e).value, x)
  {
    match e
    case Accept(t, token) => AcceptRow(s, t, token, x);
    case Store(t, dbOk) => StoreRow(s, t, dbOk, x);
    case CreateRow(_, _, _) => CreateRowRow(s, e, x);
    case _ => MoveRow(s, e, x);
  }

  lemma CreateRowRow(s: State, e: Event, x: Account)
    requires e.CreateRow? && Step(s, e).Some? && x in Step(s, e).value.rows
    requires IdsOk(s.kinds, s.rows, s.dropping) && HistoryOk(s)
    requires x in s.rows ==> RowOk(s, x)
    ensures RowOk(Step(s, e).value, x)
  {
  }

  lemma MoveRow(s: State, e: Event, x: Account)
    requires !e.CreateRow? && !e.Accept? && !e.Store? && Step(s, e).Some? && x in Step(s, e).value.rows
    requires ActorHasMutex(s, e) && IdsOk(s.kinds, s.rows, s.dropping)
    requires x in s.rows ==> RowOk(s, x)
    ensures RowOk(Step(s, e).value, x)
  {
  }

  lemma HistoryStep(s: State, e: Event)
    requires Step(s, e).Some? && ActorOk(s, e) && HistoryOk(s)
    requires e.Store? && s.threads[e.t].call.account in s.rows ==> RowOk(s, s.threads[e.t].call.account)
    ensures HistoryOk(Step(s, e).value)
  {
    if e.Store? { StoreHistory(s, e); }
    else if e.Accept? { AcceptHistory(s, e); }
  }

  lemma StoreHistory(s: State, e: Event)
    requires e.Store? && Step(s, e).Some? && ActorOk(s, e) && HistoryOk(s)
    requires s.threads[e.t].call.account in s.rows ==> RowOk(s, s.threads[e.t].call.account)
    ensures HistoryOk(Step(s, e).value)
  {
  }

  lemma AcceptHistory(s: State, e: Event)
    requires e.Accept? && Step(s, e).Some? && ActorOk(s, e) && HistoryOk(s)
    ensures HistoryOk(Step(s, e).value)
  {
  }

  lemma ResentStep(s: State, e: Event)
    requires Step(s, e).Some? && ActorOk(s, e) && HistoryOk(s) && ResentOk(s.past)
    ensures ResentOk(Step(s, e).value.past)
  {
    var h, h' := s.past, Step(s, e).value.past;
    forall p | p in h'.resent ensures p.0 in h'.failed || RetiredElsewhere(h', p.0, p.1) {
      if p in h.resent {
        ResentStays(h, h', p.0, p.1);
      } else {
        SentAfterRetired(s, e.t);
      }
    }
  }

  lemma ResentStays(h: History, h': History, x: Account, token: string)
    requires h.failed <= h'.failed && h.retired <= h'.retired
    requires x in h.failed || RetiredElsewhere(h, x, token)
    ensures x in h'.failed || RetiredElsewhere(h', x, token)
  {
  }

  /** A thread about to send: its token is retired iff its account is stale or another account retired it. */
  lemma SentAfterRetired(s: State, t: Thread)
    requires t in s.threads && s.threads[t].Ready? && RowSeenOk(s, t)
    ensures var x, sent := s.threads[t].call.account, s.threads[t].row.credentials.refreshToken;
            WasRetired(s.past, sent) <==> x in s.past.stale || RetiredElsewhere(s.past, x, sent)
  {
    var x, sent := s.threads[t].call.account, s.threads[t].row.credentials.refreshToken;
    if (x, sent) in s.past.retired {
      assert WasRetired(s.past, sent);
    }
  }

  // ---- Every enabled event keeps it ----

  lemma IdsStep(s: State, e: Event)
    requires Step(s, e).Some? && IdsOk(s.kinds, s.rows, s.dropping) && ActorHasMutex(s, e)
    ensures IdsOk(Step(s, e).value.kinds, Step(s, e).value.rows, Step(s, e).value.dropping)
  {
  }

  lemma MutualExclusionStep(s: State, e: Event)
    requires MutualExclusion(s) && Step(s, e).Some?
    ensures MutualExclusion(Step(s, e).value)
  {
    var s' := Step(s, e).value;
    IdsStep(s, e);
    forall u | u in s'.threads ensures MutexOk(s', u) {
      MutexStep(s, e, u);
    }
    forall u, v | u in s'.threads && v in s'.threads ensures Exclusive(s', u, v) {
      ExclusiveStep(s, e, u, v);
    }
  }

  /** An enabled event never takes back that an answer repeated a token. */
  lemma FlagsStay(s: State, e: Event)
    requires Step(s, e).Some?
    ensures s.past.repeated ==> Step(s, e).value.past.repeated
    ensures e.Accept? && !Step(s, e).value.past.repeated ==>
              FreshAnswer(s, s.threads[e.t].row.credentials.refreshToken, e.token)
  {
  }

  lemma TokensStep(s: State, e: Event)
    requires MutualExclusion(s) && TokensOk(s) && Step(s, e).Some? && !Step(s, e).value.past.repeated
    ensures TokensOk(Step(s, e).value)
  {
    var s' := Step(s, e).value;
    FlagsStay(s, e);
    HistoryStep(s, e);
    ResentStep(s, e);
    forall u | u in s'.threads ensures RowSeenOk(s', u) && ResultOk(s'.threads[u]) {
      if By(e, u) { OwnStep(s, e); } else { OtherStep(s, e, u); }
    }
    forall x | x in s'.rows ensures RowOk(s', x) {
      RowStep(s, e, x);
    }
  }

  /** Tokens keep their first account, and shared tokens stay shared. */
  ghost predicate Extends(h: History, h': History) {
    h.shared <= h'.shared && forall token :: token in h.issued ==> token in h'.issued && h'.issued[token] == h.issued[token]
  }

  lemma PastExtends(s: State, e: Event)
    requires Step(s, e).Some?
    ensures Extends(s.past, Step(s, e).value.past)
  {
  }

  lemma OwnsStays(h: History, h': History, x: Account, c: Credentials)
    requires Extends(h, h') && OwnsTokens(h, x, c)
    ensures OwnsTokens(h', x, c)
  {
  }

  /** The tokens of a fresh answer come to the account that asked. */
  lemma AcceptOwns(s: State, t: Thread, token: TokenResponse)
    requires Step(s, Accept(t, token)).Some? && ThreadOwns(s, t)
    requires FreshAnswer(s, s.threads[t].row.credentials.refreshToken, token)
    ensures ThreadOwns(Step(s, Accept(t, token)).value, t)
  {
    var pc := s.threads[t];
    RefreshedTokens(pc.call.kind.provider, pc.row.credentials, token,
                    FirstNonEmpty(pc.row.credentials.clientID, s.clientIds(pc.call.kind.provider)));
  }

  lemma ThreadOwnsStep(s: State, e: Event, u: Thread)
    requires Step(s, e).Some? && u in Step(s, e).value.threads
    requires u in s.threads ==> ThreadOwns(s, u)
    requires u in s.threads && s.threads[u].call.account in s.rows ==>
               OwnsTokens(s.past, s.threads[u].call.account, s.rows[s.threads[u].call.account].credentials)
    requires e.Accept? ==> FreshAnswer(s, s.threads[e.t].row.credentials.refreshToken, e.token)
    ensures ThreadOwns(Step(s, e).value, u)
  {
    if e.Accept? && e.t == u {
      AcceptOwns(s, u, e.token);
    } else if u in s.threads && !By(e, u) {
      OtherOwns(s, e, u);
    } else {
      MoverOwns(s, e, u);
    }
  }

  lemma OtherOwns(s: State, e: Event, u: Thread)
    requires Step(s, e).Some? && u in s.threads && !By(e, u) && ThreadOwns(s, u)
    ensures u in Step(s, e).value.threads && ThreadOwns(Step(s, e).value, u)
  {
    OthersStay(s, e, u);
    PastExtends(s, e);
    var pc, h' := s.threads[u], Step(s, e).value.past;
    if pc.UsesRow() { OwnsStays(s.past, h', pc.call.account, pc.row.credentials); }
    if pc.Accepted? { OwnsStays(s.past, h', pc.call.account, pc.next.credentials); }
  }

  lemma OthersStay(s: State, e: Event, u: Thread)
    requires Step(s, e).Some? && u in s.threads && !By(e, u)
    ensures u in Step(s, e).value.threads && Step(s, e).value.threads[u] == s.threads[u]
  {
  }

  lemma MoverOwns(s: State, e: Event, u: Thread)
    requires Step(s, e).Some? && By(e, u) && !e.Accept?
    requires u in s.threads ==> ThreadOwns(s, u)
    requires u in s.threads && s.threads[u].call.account in s.rows ==>
               OwnsTokens(s.past, s.threads[u].call.account, s.rows[s.threads[u].call.account].credentials)
    ensures ThreadOwns(Step(s, e).value, u)
  {
    if e.ReadRow? {
      ReaderOwns(s, u, e.now);
    } else {
      var s' := Step(s, e).value;
      assert s'.past.issued == s.past.issued && s'.past.shared == s.past.shared;
      assert s'.threads[u].UsesRow() ==> u in s.threads && s.threads[u].UsesRow() && s'.threads[u].row == s.threads[u].row;
    }
  }

  lemma ReaderOwns(s: State, u: Thread, now: int)
    requires Step(s, ReadRow(u, now)).Some?
    requires s.threads[u].call.account in s.rows ==>
               OwnsTokens(s.past, s.threads[u].call.account, s.rows[s.threads[u].call.account].credentials)
    ensures ThreadOwns(Step(s, ReadRow(u, now)).value, u)
  {
  }

  lemma RowOwnsStep(s: State, e: Event, x: Account)
    requires Step(s, e).Some? && x in Step(s, e).value.rows
    requires x in s.rows ==> OwnsTokens(s.past, x, s.rows[x].credentials)
    requires e.Store? ==> e.t in s.threads && ThreadOwns(s, e.t)
    ensures OwnsTokens(Step(s, e).value.past, x, Step(s, e).value.rows[x].credentials)
  {
    if e.CreateRow? && e.account == x {
      CreatedOwns(s.past.issued, s.past.shared, x, e.row.credentials);
    } else if !e.Store? {
      RowsStay(s, e, x);
      PastExtends(s, e);
      OwnsStays(s.past, Step(s, e).value.past, x, s.rows[x].credentials);
    }
  }

  /** A created row owns its tokens, or they are shared from now on. */
  lemma CreatedOwns(issued: map<string, Account>, shared: set<string>, x: Account, c: Credentials)
    ensures forall token :: token in Tokens(c) && token != "" ==>
              token in shared + KnownTokens(issued, c) || (token in Issue(issued, x, c) && Issue(issued, x, c)[token] == x)
  {
  }

  lemma RowsStay(s: State, e: Event, x: Account)
    requires Step(s, e).Some? && x in Step(s, e).value.rows && !e.Store? && !(e.CreateRow? && e.account == x)
    ensures x in s.rows && Step(s, e).value.rows[x] == s.rows[x]
  {
  }

  lemma PastOwnsStep(s: State, e: Event)
    requires Step(s, e).Some? && PastOwns(s.past)
    requires e.Send? || e.Accept? || e.Store? ==> ThreadOwns(s, e.t)
    ensures PastOwns(Step(s, e).value.past)
  {
    if e.Accept? {
      AcceptPastOwns(s, e);
    } else if e.Store? {
      StorePastOwns(s, e);
    }
  }

  lemma AcceptPastOwns(s: State, e: Event)
    requires e.Accept? && Step(s, e).Some? && PastOwns(s.past) && ThreadOwns(s, e.t)
    ensures PastOwns(Step(s, e).value.past)
  {
    var pc := s.threads[e.t];
    AnswerKeepsPastOwns(s.past, pc.call.account, pc.row, FreshRow(s, pc, e.token),
                        FreshAnswer(s, pc.row.credentials.refreshToken, e.token));
  }

  lemma AnswerKeepsPastOwns(h: History, x: Account, row: Row, next: Row, wasFresh: bool)
    requires PastOwns(h) && Owns(h, x, row.credentials.refreshToken) && row.credentials.refreshToken != ""
    ensures PastOwns(Answer(h, x, row, next, wasFresh))
  {
  }

  lemma StorePastOwns(s: State, e: Event)
    requires e.Store? && Step(s, e).Some? && PastOwns(s.past) && ThreadOwns(s, e.t)
    ensures PastOwns(Step(s, e).value.past)
  {
    var h, h' := s.past, Step(s, e).value.past;
    if h'.log != h.log { LogKeepsPastOwns(h, h', s.threads[e.t]); }
  }

  /** One more stored refresh. */
  lemma LogKeepsPastOwns(h: History, h': History, pc: Pc)
    requires PastOwns(h) && h'.issued == h.issued && h'.shared == h.shared && h'.retired == h.retired && h'.resent == h.resent
    requires pc.Accepted? && Owns(h, pc.call.account, pc.row.credentials.accessToken)
    requires |h'.log| == |h.log| + 1 && h'.log[..|h.log|] == h.log
    requires h'.log[|h.log|].account == pc.call.account && h'.log[|h.log|].replaced == pc.row.credentials.accessToken
    ensures PastOwns(h')
  {
    assert forall i :: 0 <= i < |h.log| ==> h'.log[i] == h.log[i];
  }

  lemma OwnersStep(s: State, e: Event)
    requires OwnersOk(s) && Step(s, e).Some? && !Step(s, e).value.past.repeated
    ensures OwnersOk(Step(s, e).value)
  {
    var s' := Step(s, e).value;
    FlagsStay(s, e);
    PastOwnsStep(s, e);
    forall u | u in s'.threads ensures ThreadOwns(s', u) { ThreadOwnsStep(s, e, u); }
    forall x | x in s'.rows ensures OwnsTokens(s'.past, x, s'.rows[x].credentials) { RowOwnsStep(s, e, x); }
  }

  lemma InvStep(s: State, e: Event)
    requires Inv(s) && Step(s, e).Some?
    ensures Inv(Step(s, e).value)
  {
    var s' := Step(s, e).value;
    FlagsStay(s, e);
    MutualExclusionStep(s, e);
    if !s'.past.repeated {
      TokensStep(s, e);
      OwnersStep(s, e);
    }
  }

  // ---- What holds over every run ----

  ghost predicate Reaches(clientIds: Provider -> string, run: seq<Event>, s: State) {
    Runs.Exec(Step, Init(clientIds), run) == Some(s)
  }

  lemma EveryRunKeepsInv(clientIds: Provider -> string, run: seq<Event>, s: State)
    requires Reaches(clientIds, run, s)
    ensures Inv(s)
  {
    forall p, e | Inv(p) && Step(p, e).Some? ensures Inv(Step(p, e).value) { InvStep(p, e); }
    Runs.Invariant(Step, p => Inv(p), Init(clientIds), run);
  }

  /** At most one refresh request per account is in flight, whatever the provider answers, deletions and dropped mutexes included. */
  lemma OneRequestInFlight(clientIds: Provider -> string, run: seq<Event>, s: State, t: Thread, u: Thread)
    requires Reaches(clientIds, run, s)
    requires t in s.threads && s.threads[t].InFlight? && u in s.threads && s.threads[u].InFlight?
    requires s.threads[t].call.account == s.threads[u].call.account
    ensures t == u
  {
    EveryRunKeepsInv(clientIds, run, s);
    assert Exclusive(s, t, u);
  }

  /**
   As long as answers are fresh, a refresh token replaced by an accepted answer goes out again only for an account
   with a failed update, or because rows were created with the same token and another account had it replaced.
   */
  lemma RetiredTokensStayUnsent(clientIds: Provider -> string, run: seq<Event>, s: State)
    requires Reaches(clientIds, run, s) && !s.past.repeated
    ensures forall p :: p in s.past.resent ==> p.0 in s.past.failed || (p.1 in s.past.shared && RetiredElsewhere(s.past, p.0, p.1))
    ensures s.past.shared == {} && s.past.failed == {} ==> s.past.resent == {}
  {
    EveryRunKeepsInv(clientIds, run, s);
    forall p | p in s.past.resent && p.1 !in s.past.shared ensures p.0 in s.past.failed { NotRetiredElsewhere(s.past, p.0, p.1); }
  }

  /** A token with one owner is replaced by its owner only. */
  lemma NotRetiredElsewhere(h: History, x: Account, token: string)
    requires PastOwns(h) && token != "" && Owns(h, x, token) && token !in h.shared
    ensures !RetiredElsewhere(h, x, token)
  {
  }

  /**
   The exact condition: with fresh answers, the request about to go out carries a retired token iff the account's
   last accepted replacement was not stored or another account had the same token replaced, which does not happen
   to a token that only one row was created with.
   */
  lemma SendsRetiredTokenIff(clientIds: Provider -> string, run: seq<Event>, s: State, t: Thread)
    requires Reaches(clientIds, run, s) && !s.past.repeated
    requires t in s.threads && s.threads[t].Ready?
    ensures var x, sent := s.threads[t].call.account, s.threads[t].row.credentials.refreshToken;
            && (WasRetired(s.past, sent) <==> x in s.past.stale || RetiredElsewhere(s.past, x, sent))
            && (sent !in s.past.shared ==> (WasRetired(s.past, sent) <==> x in s.past.stale))
  {
    EveryRunKeepsInv(clientIds, run, s);
    SentAfterRetired(s, t);
    if s.threads[t].row.credentials.refreshToken !in s.past.shared {
      assert ThreadOwns(s, t);
      NotRetiredElsewhere(s.past, s.threads[t].call.account, s.threads[t].row.credentials.refreshToken);
    }
  }

  /** Each access token of an account is replaced by at most one completed refresh, whoever started it. */
  lemma EachTokenRefreshedOnce(clientIds: Provider -> string, run: seq<Event>, s: State, i: int, j: int)
    requires Reaches(clientIds, run, s) && !s.past.repeated
    requires 0 <= i < j < |s.past.log| && s.past.log[i].account == s.past.log[j].account
    ensures s.past.log[i].replaced != s.past.log[j].replaced
  {
    EveryRunKeepsInv(clientIds, run, s);
    assert LogOk(s.past.log, s.past.issued, s.kinds);
  }

  /**
   All forced callers that started from access token `a` cause at most one completed refresh of each account,
   and at most one in total unless two rows were created with it.
   */
  lemma ForcedCallersRefreshOnce(clientIds: Provider -> string, run: seq<Event>, s: State, i: int, j: int, a: string)
    requires Reaches(clientIds, run, s) && !s.past.repeated && a != ""
    requires 0 <= i < |s.past.log| && s.past.log[i].force && s.past.log[i].original == a
    requires 0 <= j < |s.past.log| && s.past.log[j].force && s.past.log[j].original == a
    ensures s.past.log[i].account == s.past.log[j].account || a !in s.past.shared ==> i == j
  {
    EveryRunKeepsInv(clientIds, run, s);
    assert LogOk(s.past.log, s.past.issued, s.kinds);
    if a !in s.past.shared {
      assert Owns(s.past, s.past.log[i].account, a) && Owns(s.past, s.past.log[j].account, a);
    }
  }

  /** With fresh answers a forced OAuth caller that returns without error holds a token other than the one it started from. */
  lemma ForcedCallersGetAnotherToken(clientIds: Provider -> string, run: seq<Event>, s: State, t: Thread)
    requires Reaches(clientIds, run, s) && !s.past.repeated
    requires t in s.threads && s.threads[t].Returned? && s.threads[t].outcome.Ok?
    requires s.threads[t].call.force && s.threads[t].call.kind.oauth
    ensures s.threads[t].outcome.value.accessToken != s.threads[t].call.original
  {
    EveryRunKeepsInv(clientIds, run, s);
    assert ResultOk(s.threads[t]);
  }

  /** A forced call that finds the account's mutex free comes to hold it. */
  lemma ForcedCallLocks(s: State, t: Thread, x: Account) returns (events: seq<Event>, s': State)
    requires x in s.kinds && s.kinds[x].oauth && x in s.rows && t !in s.threads
    requires s.rows[x].credentials.accessToken in s.past.issued
    requires (if x in s.locks then s.locks[x] else s.mutexes) !in s.held
    ensures Runs.Exec(Step, s, events) == Some(s')
    ensures var m := if x in s.locks then s.locks[x] else s.mutexes;
            s' == s.(threads := s.threads[t := Locked(Call(x, s.kinds[x], s.rows[x].credentials.accessToken, true), m)],
                     locks := s.locks[x := m], mutexes := if x in s.locks then s.mutexes else s.mutexes + 1,
                     held := s.held[m := t])
  {
    var call, m := Call(x, s.kinds[x], s.rows[x].credentials.accessToken, true), if x in s.locks then s.locks[x] else s.mutexes;
    events := [Start(t, x, s.rows[x], true, 0), LoadOrStore(t), Lock(t)];
    var s1 := s.(threads := s.threads[t := WantMutex(call)]);
    assert Step(s, events[0]) == Some(s1);
    var s2 := s1.(threads := s1.threads[t := WantLock(call, m)],
                  locks := if x in s.locks then s.locks else s.locks[x := m],
                  mutexes := if x in s.locks then s.mutexes else s.mutexes + 1);
    assert Step(s1, events[1]) == Some(s2);
    s' := s2.(threads := s2.threads[t := Locked(call, m)], held := s.held[m := t]);
    assert Step(s2, events[2]) == Some(s');
    Runs.Sequence(Step, s, events, [s, s1, s2, s']);
    assert s'.threads == s.threads[t := Locked(call, m)];
    assert s'.locks == s.locks[x := m];
  }

  /** The account has an OAuth row with a refresh token, and its mutex, if there is one, is free. */
  ghost predicate CanRefresh(s: State, t: Thread, x: Account) {
    && x in s.kinds && s.kinds[x].oauth && x in s.rows && t !in s.threads
    && s.rows[x].credentials.accessToken in s.past.issued && s.rows[x].credentials.refreshToken != ""
    && (if x in s.locks then s.locks[x] else s.mutexes) !in s.held
  }

  ghost function ResentBy(s: State, x: Account): set<(Account, string)>
    requires x in s.rows
  {
    var sent := s.rows[x].credentials.refreshToken;
    if WasRetired(s.past, sent) then s.past.resent + {(x, sent)} else s.past.resent
  }

  /** Having the mutex, it reads the row and sends its refresh token. */
  lemma ReadAndSent(s: State, t: Thread, x: Account, m: MutexId, a: string) returns (s': State)
    requires x in s.rows && x in s.kinds && t in s.threads && s.threads[t] == Locked(Call(x, s.kinds[x], a, true), m)
    requires a == s.rows[x].credentials.accessToken && s.rows[x].credentials.refreshToken != ""
    ensures Runs.Exec(Step, s, [ReadRow(t, 0), Send(t)]) == Some(s')
    ensures s' == s.(threads := s.threads[t := InFlight(Call(x, s.kinds[x], a, true), m, s.rows[x])],
                     past := s.past.(resent := ResentBy(s, x)))
  {
    var call := s.threads[t].call;
    var s1 := s.(threads := s.threads[t := Ready(call, m, s.rows[x])]);
    assert Step(s, ReadRow(t, 0)) == Some(s1);
    s' := Step(s1, Send(t)).value;
    Runs.Sequence(Step, s, [ReadRow(t, 0), Send(t)], [s, s1, s']);
    assert s'.threads == s.threads[t := InFlight(call, m, s.rows[x])];
  }

  lemma ForcedCallSends(s: State, t: Thread, x: Account) returns (events: seq<Event>, s': State)
    requires CanRefresh(s, t, x)
    ensures Runs.Exec(Step, s, events) == Some(s')
    ensures var m := if x in s.locks then s.locks[x] else s.mutexes;
            && s'.threads == s.threads[t := InFlight(Call(x, s.kinds[x], s.rows[x].credentials.accessToken, true), m, s.rows[x])]
            && s'.held == s.held[m := t]
    ensures s'.kinds == s.kinds && s'.rows == s.rows && s'.past == s.past.(resent := ResentBy(s, x))
  {
    var first, s1 := ForcedCallLocks(s, t, x);
    var second := [ReadRow(t, 0), Send(t)];
    s' := ReadAndSent(s1, t, x, s1.locks[x], s.rows[x].credentials.accessToken);
    Runs.ExecAppend(Step, s, first, second);
    events := first + second;
  }

  /** A fresh answer with a new refresh token comes in. */
  lemma Answered(s: State, t: Thread, token: TokenResponse) returns (s': State)
    requires t in s.threads && s.threads[t].InFlight?
    requires FreshAnswer(s, s.threads[t].row.credentials.refreshToken, token) && token.accessToken != ""
    requires token.refreshToken != "" && token.refreshToken != s.threads[t].row.credentials.refreshToken
    ensures Step(s, Accept(t, token)) == Some(s')
    ensures var pc := s.threads[t];
            s' == s.(threads := s'.threads, past := s.past.(issued := s'.past.issued,
                       retired := s.past.retired + {(pc.call.account, pc.row.credentials.refreshToken)}))
    ensures s'.past.issued.Keys == s.past.issued.Keys + {token.accessToken, token.refreshToken}
    ensures var pc := s.threads[t];
            s'.threads == s.threads[t := Accepted(pc.call, pc.mutex, pc.row, FreshRow(s, pc, token))]
    ensures var next := FreshRow(s, s.threads[t], token);
            next.credentials.accessToken == token.accessToken && Rotates(s.threads[t].row, next)
  {
    var pc := s.threads[t];
    RefreshedTokens(pc.call.kind.provider, pc.row.credentials, token,
                    FirstNonEmpty(pc.row.credentials.clientID, s.clientIds(pc.call.kind.provider)));
    s' := Step(s, Accept(t, token)).value;
  }

  /** It is stored, or not, and the mutex given back. */
  lemma Settled(s: State, t: Thread, dbOk: bool) returns (s': State)
    requires t in s.threads && s.threads[t].Accepted? && s.threads[t].call.account in s.rows
    ensures Runs.Exec(Step, s, [Store(t, dbOk), Unlock(t)]) == Some(s')
    ensures s'.threads.Keys == s.threads.Keys && s'.held == s.held - {s.threads[t].mutex}
    ensures s' == s.(threads := s'.threads, held := s'.held, rows := s'.rows, past := s'.past)
    ensures s'.rows == if dbOk then s.rows[s.threads[t].call.account := s.threads[t].next] else s.rows
    ensures s'.past == s.past.(failed := s'.past.failed, stale := s'.past.stale, log := s'.past.log)
    ensures s'.past.failed == if dbOk then s.past.failed else s.past.failed + {s.threads[t].call.account}
    ensures var pc := s.threads[t];
            s'.past.log == s.past.log + if !dbOk then [] else
              [Stored(t, pc.call.account, pc.call.force, pc.call.original, pc.row.credentials.accessToken, pc.next.credentials.accessToken)]
  {
    var s1 := Step(s, Store(t, dbOk)).value;
    s' := Step(s1, Unlock(t)).value;
    Runs.Sequence(Step, s, [Store(t, dbOk), Unlock(t)], [s, s1, s']);
  }

  lemma AcceptedThenStored(s: State, t: Thread, token: TokenResponse, dbOk: bool) returns (events: seq<Event>, s': State)
    requires t in s.threads && s.threads[t].InFlight? && s.threads[t].call.account in s.rows
    requires FreshAnswer(s, s.threads[t].row.credentials.refreshToken, token) && token.accessToken != ""
    requires token.refreshToken != "" && token.refreshToken != s.threads[t].row.credentials.refreshToken
    ensures Runs.Exec(Step, s, events) == Some(s')
    ensures s'.kinds == s.kinds && s'.rows.Keys == s.rows.Keys
    ensures forall y :: y in s.rows && (y != s.threads[t].call.account || !dbOk) ==> s'.rows[y] == s.rows[y]
    ensures s'.threads.Keys == s.threads.Keys && s'.held == s.held - {s.threads[t].mutex} && s'.past.resent == s.past.resent
    ensures s'.past.issued.Keys == s.past.issued.Keys + {token.accessToken, token.refreshToken}
    ensures s'.past.shared == s.past.shared && s'.past.repeated == s.past.repeated
    ensures s'.past.retired == s.past.retired + {(s.threads[t].call.account, s.threads[t].row.credentials.refreshToken)}
    ensures s'.past.failed == if dbOk then s.past.failed else s.past.failed + {s.threads[t].call.account}
    ensures var pc := s.threads[t];
            s'.past.log == s.past.log + if !dbOk then [] else
              [Stored(t, pc.call.account, pc.call.force, pc.call.original, pc.row.credentials.accessToken, token.accessToken)]
  {
    var s1 := Answered(s, t, token);
    s' := Settled(s1, t, dbOk);
    Runs.Sequence(Step, s, [Accept(t, token)], [s, s1]);
    events := [Accept(t, token)] + [Store(t, dbOk), Unlock(t)];
    Runs.ExecAppend(Step, s, [Accept(t, token)], [Store(t, dbOk), Unlock(t)]);
  }

  /** An answer with tokens not seen before. */
  predicate NewAnswer(token: TokenResponse, seen: set<string>) {
    && token.accessToken != "" && token.refreshToken != "" && token.accessToken != token.refreshToken
    && token.accessToken !in seen && token.refreshToken !in seen
  }

  /** A forced call from sending its refresh token to giving the mutex back. */
  lemma ForcedRefresh(s: State, t: Thread, x: Account, token: TokenResponse, dbOk: bool) returns (events: seq<Event>, s': State)
    requires CanRefresh(s, t, x)
    requires NewAnswer(token, s.past.issued.Keys) && s.rows[x].credentials.refreshToken in s.past.issued
    ensures Runs.Exec(Step, s, events) == Some(s')
    ensures s'.kinds == s.kinds && s'.held == s.held && s'.threads.Keys == s.threads.Keys + {t}
    ensures s'.rows.Keys == s.rows.Keys && forall y :: y in s.rows && (y != x || !dbOk) ==> s'.rows[y] == s.rows[y]
    ensures s'.past.issued.Keys == s.past.issued.Keys + {token.accessToken, token.refreshToken}
    ensures s'.past.shared == s.past.shared && s'.past.repeated == s.past.repeated
    ensures s'.past.failed == if dbOk then s.past.failed else s.past.failed + {x}
    ensures s'.past.retired == s.past.retired + {(x, s.rows[x].credentials.refreshToken)}
    ensures s'.past.resent == ResentBy(s, x)
    ensures var a := s.rows[x].credentials.accessToken;
            s'.past.log == s.past.log + if dbOk then [Stored(t, x, true, a, a, token.accessToken)] else []
  {
    var send, s1 := ForcedCallSends(s, t, x);
    var store;
    store, s' := AcceptedThenStored(s1, t, token, dbOk);
    events := send + store;
    Runs.ExecAppend(Step, s, send, store);
  }

  /** The accounts 1 and 2, both created with `row`. */
  lemma CreatedTwice(clientIds: Provider -> string, kind: Kind, row: Row) returns (events: seq<Event>, s: State)
    ensures Reaches(clientIds, events, s)
    ensures s.kinds == map[1 := kind, 2 := kind] && s.rows == map[1 := row, 2 := row]
    ensures s.held == map[] && s.threads == map[]
    ensures s.past.issued.Keys == Tokens(row.credentials)
    ensures s.past == History(s.past.issued, s.past.shared, false, {}, {}, {}, {}, [])
  {
    var s0 := Init(clientIds);
    events := [CreateRow(1, kind, row), CreateRow(2, kind, row)];
    var s1 := Step(s0, events[0]).value;
    s := Step(s1, events[1]).value;
    Runs.Sequence(Step, s0, events, [s0, s1, s]);
  }

  /** Account 1, created with `row`. */
  lemma CreatedOnce(clientIds: Provider -> string, kind: Kind, row: Row) returns (events: seq<Event>, s: State)
    ensures Reaches(clientIds, events, s)
    ensures s.kinds == map[1 := kind] && s.rows == map[1 := row] && s.held == map[] && s.threads == map[]
    ensures s.past.issued.Keys == Tokens(row.credentials)
    ensures s.past == History(s.past.issued, {}, false, {}, {}, {}, {}, [])
  {
    var s0 := Init(clientIds);
    events := [CreateRow(1, kind, row)];
    s := Step(s0, events[0]).value;
    Runs.Sequence(Step, s0, events, [s0, s]);
  }

  function ClaudeRow(access: string, refresh: string): (row: Row)
    ensures Tokens(row.credentials) == {access, refresh}
  {
    Row(EMPTY.(accessToken := access, refreshToken := refresh), None)
  }

  /** A failed update, then the next forced call. */
  lemma FailedThenSent(s: State, answer: TokenResponse) returns (events: seq<Event>, s': State)
    requires CanRefresh(s, 7, 1) && s.held == map[] && 8 !in s.threads
    requires s.past.resent == {} && s.past.failed == {}
    requires s.rows[1].credentials.refreshToken in s.past.issued && NewAnswer(answer, s.past.issued.Keys)
    ensures Runs.Exec(Step, s, events) == Some(s')
    ensures s'.past.repeated == s.past.repeated && s'.past.shared == s.past.shared
    ensures s'.past.resent == {(1, s.rows[1].credentials.refreshToken)} && s'.past.failed == {1}
  {
    var fail, s1 := ForcedRefresh(s, 7, 1, answer, false);
    assert (1, s.rows[1].credentials.refreshToken) in s1.past.retired;
    var again;
    again, s' := ForcedCallSends(s1, 8, 1);
    events := fail + again;
    Runs.ExecAppend(Step, s, fail, again);
  }

  /** With a failed row update the replaced token does go out again, however fresh the answers and the rows are. */
  lemma FailedStoreResendsRetiredToken(clientIds: Provider -> string, a: string, r: string, answer: TokenResponse)
    requires r != "" && NewAnswer(answer, {a, r})
    ensures exists run, s :: Reaches(clientIds, run, s) && !s.past.repeated && s.past.shared == {}
                             && s.past.resent == {(1, r)} && s.past.failed == {1}
  {
    var create, s1 := CreatedOnce(clientIds, Kind(Claude, true), ClaudeRow(a, r));
    var resend, s2 := FailedThenSent(s1, answer);
    Runs.ExecAppend(Step, Init(clientIds), create, resend);
    assert Reaches(clientIds, create + resend, s2);
  }

  /** The second of two rows with the same tokens is refreshed after the first. */
  lemma SecondOfTwoRefreshes(s: State, row: Row, first: TokenResponse, second: TokenResponse) returns (events: seq<Event>, s': State)
    requires CanRefresh(s, 7, 1) && CanRefresh(s, 8, 2) && s.rows[1] == s.rows[2] == row && s.held == map[] && s.past.resent == {}
    requires row.credentials.refreshToken in s.past.issued && (forall p :: p !in s.past.retired)
    requires NewAnswer(first, s.past.issued.Keys)
    requires NewAnswer(second, s.past.issued.Keys + {first.accessToken, first.refreshToken})
    ensures Runs.Exec(Step, s, events) == Some(s')
    ensures s'.past.repeated == s.past.repeated && s'.past.failed == s.past.failed
    ensures s'.past.resent == {(2, row.credentials.refreshToken)}
    ensures var a := row.credentials.accessToken;
            s'.past.log == s.past.log + [Stored(7, 1, true, a, a, first.accessToken), Stored(8, 2, true, a, a, second.accessToken)]
  {
    var one, s1 := ForcedRefresh(s, 7, 1, first, true);
    assert (1, row.credentials.refreshToken) in s1.past.retired;
    var two;
    two, s' := ForcedRefresh(s1, 8, 2, second, true);
    events := one + two;
    Runs.ExecAppend(Step, s, one, two);
  }

  /**
   Two rows may be created with the same tokens. Then, without any failure, the second account sends the token
   the first one had replaced, and forced callers from one access token cause two stored refreshes.
   */
  lemma TwoAccountsShareTokens(clientIds: Provider -> string, a: string, r: string, first: TokenResponse, second: TokenResponse)
    requires r != "" && NewAnswer(first, {a, r}) && NewAnswer(second, {a, r, first.accessToken, first.refreshToken})
    ensures exists run, s :: Reaches(clientIds, run, s) && !s.past.repeated && s.past.failed == {}
                             && s.past.resent == {(2, r)}
                             && |s.past.log| == 2 && s.past.log[0].force && s.past.log[1].force
                             && s.past.log[0].original == s.past.log[1].original == a
  {
    var create, s1 := CreatedTwice(clientIds, Kind(Claude, true), ClaudeRow(a, r));
    assert s1.past.issued.Keys + {first.accessToken, first.refreshToken} == {a, r, first.accessToken, first.refreshToken};
    var refresh, s2 := SecondOfTwoRefreshes(s1, ClaudeRow(a, r), first, second);
    Runs.ExecAppend(Step, Init(clientIds), create, refresh);
    assert Reaches(clientIds, create + refresh, s2);
  }
}

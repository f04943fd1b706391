/**
 The map of pending logins shared by the Grok device flow and the PKCE flow: at most twenty flows,
 each owning the HTTP client built for it. Ids are random and taken to be new each time.
 */
module FlowTable {
  import opened Prelude

  type FlowId = int
  type Client = int
  type Thread = int

  const MAX_PENDING := 20

  datatype Flow<D> = Flow(owner: string, expiresAt: int, client: Client, data: D)

  /** Where a client is: with the thread that built it or removed its flow, with its flow, or closed. */
  datatype Place = WithThread(thread: Thread) | WithFlow(id: FlowId) | Closed

  /**
   `flows` is the server's map, `held` the clients in the hands of threads. History: how often each
   client was closed, the ids used so far, and where each client has gone.
   */
  datatype Table<D> = Table(flows: map<FlowId, Flow<D>>, held: map<Thread, Client>,
                            closes: map<Client, nat>, used: set<FlowId>, place: map<Client, Place>)

  predicate Expired<D>(f: Flow<D>, now: int) { !(now < f.expiresAt) }

  function ExpiredIds<D>(flows: map<FlowId, Flow<D>>, now: int): set<FlowId> {
    set id | id in flows && Expired(flows[id], now)
  }

  function ClientsOf<D>(flows: map<FlowId, Flow<D>>, ids: set<FlowId>): set<Client> {
    set id | id in ids && id in flows :: flows[id].client
  }

  /** Deletes flows and closes their clients, of which no two are the same (see TableInv). */
  function Drop<D>(t: Table<D>, ids: set<FlowId>): Table<D> {
    t.(flows := t.flows - ids,
       closes := map c | c in t.closes :: t.closes[c] + (if c in ClientsOf(t.flows, ids) then 1 else 0),
       place := map c | c in t.place :: if t.place[c].WithFlow? && t.place[c].id in ids then Closed else t.place[c])
  }

  function Cleanup<D>(t: Table<D>, now: int): Table<D> { Drop(t, ExpiredIds(t.flows, now)) }

  function Shutdown<D>(t: Table<D>): Table<D> { Drop(t, t.flows.Keys) }

  function Build<D>(t: Table<D>, th: Thread, c: Client): Table<D> {
    t.(held := t.held[th := c], closes := t.closes[c := 0], place := t.place[c := WithThread(th)])
  }

  function CloseHeld<D>(t: Table<D>, th: Thread): Table<D>
    requires th in t.held && t.held[th] in t.closes
  {
    var c := t.held[th];
    t.(held := t.held - {th}, closes := t.closes[c := t.closes[c] + 1], place := t.place[c := Closed])
  }

  /** Files a new flow, which owns the thread's client from then on. */
  function File<D>(t: Table<D>, th: Thread, id: FlowId, owner: string, expiresAt: int, data: D): Table<D>
    requires th in t.held
  {
    t.(flows := t.flows[id := Flow(owner, expiresAt, t.held[th], data)],
       held := t.held - {th}, used := t.used + {id}, place := t.place[t.held[th] := WithFlow(id)])
  }

  /** Takes a flow out; its client passes to the thread, which closes it after unlocking. */
  function Remove<D>(t: Table<D>, th: Thread, id: FlowId): Table<D> {
    if id !in t.flows then t
    else
      var c := t.flows[id].client;
      t.(flows := t.flows - {id}, held := t.held[th := c], place := t.place[c := WithThread(th)])
  }

  function SetData<D>(t: Table<D>, id: FlowId, data: D): Table<D>
    requires id in t.flows
  {
    t.(flows := t.flows[id := t.flows[id].(data := data)])
  }

  /** A client is in exactly one place, and has been closed once if that place is Closed, else never. */
  ghost predicate ClientOk<D>(t: Table<D>, c: Client)
    requires c in t.place
  {
    && c in t.closes && t.closes[c] == (if t.place[c].Closed? then 1 else 0)
    && (t.place[c].WithThread? ==> t.place[c].thread in t.held && t.held[t.place[c].thread] == c)
    && (t.place[c].WithFlow? ==> t.place[c].id in t.flows && t.flows[t.place[c].id].client == c)
  }

  /** Capacity, and the life of every client. */
  ghost predicate TableInv<D>(t: Table<D>) {
    && |t.flows| <= MAX_PENDING
    && t.flows.Keys <= t.used
    && t.closes.Keys == t.place.Keys
    && (forall i :: i in t.flows ==> t.flows[i].client in t.place && t.place[t.flows[i].client] == WithFlow(i))
    && (forall a :: a in t.held ==> t.held[a] in t.place && t.place[t.held[a]] == WithThread(a))
    && (forall c :: c in t.place ==> ClientOk(t, c))
  }

  lemma SmallerMap<K, V>(m: map<K, V>, ks: set<K>)
    ensures |m - ks| <= |m|
  {
    assert (m - ks).Keys == m.Keys - ks;
    assert |m.Keys| == |m.Keys - ks| + |m.Keys * ks|;
  }

  lemma ClientDropped<D>(t: Table<D>, ids: set<FlowId>, c: Client)
    requires TableInv(t) && c in t.place
    ensures c in ClientsOf(t.flows, ids) <==> t.place[c].WithFlow? && t.place[c].id in ids
  {
    assert ClientOk(t, c);
    if t.place[c].WithFlow? && t.place[c].id in ids {
      assert t.flows[t.place[c].id].client in ClientsOf(t.flows, ids);
    }
  }

  lemma DropKeepsInv<D>(t: Table<D>, ids: set<FlowId>)
    requires TableInv(t)
    ensures TableInv(Drop(t, ids))
  {
    var u := Drop(t, ids);
    SmallerMap(t.flows, ids);
    forall c | c in u.place ensures ClientOk(u, c) {
      ClientDropped(t, ids, c);
      assert ClientOk(t, c);
    }
  }

  lemma BuildKeepsInv<D>(t: Table<D>, th: Thread, c: Client)
    requires TableInv(t) && th !in t.held && c !in t.closes
    ensures TableInv(Build(t, th, c))
  {
    var u := Build(t, th, c);
    forall d | d in u.place ensures ClientOk(u, d) { if d != c { assert ClientOk(t, d); } }
  }

  lemma CloseHeldKeepsInv<D>(t: Table<D>, th: Thread)
    requires TableInv(t) && th in t.held
    ensures TableInv(CloseHeld(t, th))
  {
    var u := CloseHeld(t, th);
    assert ClientOk(t, t.held[th]);
    forall d | d in u.place ensures ClientOk(u, d) { assert ClientOk(t, d); }
  }

  lemma FileKeepsInv<D>(t: Table<D>, th: Thread, id: FlowId, owner: string, expiresAt: int, data: D)
    requires TableInv(t) && th in t.held && id !in t.used && |t.flows| < MAX_PENDING
    ensures TableInv(File(t, th, id, owner, expiresAt, data))
  {
    var u := File(t, th, id, owner, expiresAt, data);
    assert ClientOk(t, t.held[th]);
    assert u.flows.Keys == t.flows.Keys + {id};
    forall d | d in u.place ensures ClientOk(u, d) { FiledClientOk(t, th, id, owner, expiresAt, data, d); }
  }

  lemma FiledClientOk<D>(t: Table<D>, th: Thread, id: FlowId, owner: string, expiresAt: int, data: D, d: Client)
    requires th in t.held && id !in t.flows && d in t.place && ClientOk(t, d)
    requires t.held[th] in t.place && t.place[t.held[th]] == WithThread(th) && ClientOk(t, t.held[th])
    ensures ClientOk(File(t, th, id, owner, expiresAt, data), d)
  {
  }

  lemma RemoveKeepsInv<D>(t: Table<D>, th: Thread, id: FlowId)
    requires TableInv(t) && th !in t.held
    ensures TableInv(Remove(t, th, id))
  {
    if id in t.flows {
      var u := Remove(t, th, id);
      SmallerMap(t.flows, {id});
      assert ClientOk(t, t.flows[id].client);
      forall d | d in u.place ensures ClientOk(u, d) { assert ClientOk(t, d); }
    }
  }

  lemma SetDataKeepsInv<D>(t: Table<D>, id: FlowId, data: D)
    requires TableInv(t) && id in t.flows
    ensures TableInv(SetData(t, id, data))
  {
    var u := SetData(t, id, data);
    assert u.flows.Keys == t.flows.Keys;
    forall d | d in u.place ensures ClientOk(u, d) { assert ClientOk(t, d); }
  }

  /** What TableInv says of one client in terms of the server's own state. */
  lemma ClientAccountedFor<D>(t: Table<D>, c: Client)
    requires TableInv(t) && c in t.closes
    ensures t.closes[c] <= 1
    ensures t.closes[c] == 0 <==>
            (exists a :: a in t.held && t.held[a] == c) || (exists i :: i in t.flows && t.flows[i].client == c)
    ensures forall a, b :: a in t.held && b in t.held && t.held[a] == c == t.held[b] ==> a == b
    ensures forall i, j :: i in t.flows && j in t.flows && t.flows[i].client == c == t.flows[j].client ==> i == j
    ensures forall a, i :: a in t.held && i in t.flows && t.held[a] == c ==> t.flows[i].client != c
  {
    assert ClientOk(t, c);
  }

  // ---- What the handlers leave of the map ----

  /** The logins that have expired are gone, and all others are as they were, but for `changed`. */
  ghost predicate OnlyExpiredGone<D>(flows: map<FlowId, Flow<D>>, flows': map<FlowId, Flow<D>>, now: int, changed: set<FlowId>) {
    && (forall i :: i in flows' <==> i in flows && now < flows[i].expiresAt)
    && (forall i :: i in flows' && i !in changed ==> flows'[i] == flows[i])
  }

  /** The same, with login `id` gone as well. */
  ghost predicate GoneToo<D>(flows: map<FlowId, Flow<D>>, flows': map<FlowId, Flow<D>>, now: int, id: FlowId) {
    && (forall i :: i in flows' <==> i in flows && now < flows[i].expiresAt && i != id)
    && (forall i :: i in flows' ==> flows'[i] == flows[i])
  }

  /** `ids` are the logins that still count at `now`. */
  ghost predicate Unexpired<D>(ids: set<FlowId>, flows: map<FlowId, Flow<D>>, now: int) {
    forall id :: id in ids <==> id in flows && now < flows[id].expiresAt
  }

  lemma CleanedUp<D>(t: Table<D>, t': Table<D>, now: int)
    requires t' == Cleanup(t, now)
    ensures OnlyExpiredGone(t.flows, t'.flows, now, {})
    ensures forall i :: i in t'.flows ==> now < t'.flows[i].expiresAt
  {
  }

  lemma CleanedSize<D>(t: Table<D>, now: int) returns (pending: set<FlowId>)
    ensures Unexpired(pending, t.flows, now) && |Cleanup(t, now).flows| == |pending|
  {
    pending := Cleanup(t, now).flows.Keys;
  }

  lemma ThenChanged<D>(flows: map<FlowId, Flow<D>>, cleaned: map<FlowId, Flow<D>>, now: int, id: FlowId, f: Flow<D>)
    requires OnlyExpiredGone(flows, cleaned, now, {id}) && id in cleaned
    ensures OnlyExpiredGone(flows, cleaned[id := f], now, {id})
    ensures id in flows && f == flows[id] ==> OnlyExpiredGone(flows, cleaned[id := f], now, {})
  {
  }

  lemma ThenGone<D>(flows: map<FlowId, Flow<D>>, changed: map<FlowId, Flow<D>>, now: int, id: FlowId)
    requires OnlyExpiredGone(flows, changed, now, {id})
    ensures GoneToo(flows, changed - {id}, now, id)
  {
  }

  /** One flow deleted and its client closed. */
  function DropOne<D>(t: Table<D>, id: FlowId): Table<D>
    requires id in t.flows && t.flows[id].client in t.closes
  {
    var c := t.flows[id].client;
    t.(flows := t.flows - {id}, closes := t.closes[c := t.closes[c] + 1], place := t.place[c := Closed])
  }

  lemma ClientDroppedToo<D>(t: Table<D>, ids: set<FlowId>, id: FlowId, d: Client)
    requires TableInv(t) && id in t.flows && id !in ids && d in t.place
    ensures d in ClientsOf(t.flows, ids + {id}) <==> d in ClientsOf(t.flows, ids) || d == t.flows[id].client
    ensures d == t.flows[id].client ==> d !in ClientsOf(t.flows, ids)
    ensures t.place[d].WithFlow? && t.place[d].id in ids + {id} <==>
            (t.place[d].WithFlow? && t.place[d].id in ids) || d == t.flows[id].client
  {
    assert ClientOk(t, d);
    ClientDropped(t, ids, d);
    ClientDropped(t, ids + {id}, d);
  }

  /** Dropping one more flow. */
  lemma DropOneMore<D>(t: Table<D>, ids: set<FlowId>, id: FlowId)
    requires TableInv(t) && id in t.flows && id !in ids
    ensures id in Drop(t, ids).flows && Drop(t, ids).flows[id].client in Drop(t, ids).closes
    ensures Drop(t, ids + {id}) == DropOne(Drop(t, ids), id)
  {
    var u, v := DropOne(Drop(t, ids), id), Drop(t, ids + {id});
    forall d | d in t.place ensures v.closes[d] == u.closes[d] && v.place[d] == u.place[d] {
      ClientDroppedToo(t, ids, id, d);
    }
    assert v.flows == u.flows;
    assert v.closes == u.closes;
    assert v.place == u.place;
  }

  lemma DropNone<D>(t: Table<D>)
    ensures Drop(t, {}) == t
  {
    assert t.flows - {} == t.flows;
    assert ClientsOf(t.flows, {}) == {};
    assert Drop(t, {}).closes == t.closes && Drop(t, {}).place == t.place;
  }

  lemma DropNext<D>(t: Table<D>, ids: set<FlowId>, left: set<FlowId>, id: FlowId, r: Table<D>)
    requires TableInv(t) && left <= ids <= t.flows.Keys && id in left && r == Drop(t, ids - left)
    ensures id in r.flows && r.flows[id].client in r.closes && DropOne(r, id) == Drop(t, ids - (left - {id}))
  {
    DropOneMore(t, ids - left, id);
    assert ids - left + {id} == ids - (left - {id});
  }

  /** Deletes the flows `ids` one by one, in any order, closing each one's client. */
  method DropEach<D>(t: Table<D>, ids: set<FlowId>) returns (r: Table<D>)
    requires TableInv(t) && ids <= t.flows.Keys
    ensures r == Drop(t, ids)
  {
    r := t;
    var left := ids;
    DropNone(t);
    assert ids - left == {};
    while left != {}
      invariant left <= ids && r == Drop(t, ids - left)
    {
      var id := Pick(left);
      DropNext(t, ids, left, id, r);
      r := DropOne(r, id);
      left := left - {id};
    }
    assert ids - left == ids;
  }

  /** randomFlowID, whose ids are taken to be new. */
  method NewFlowId(used: set<FlowId>) returns (id: FlowId)
    ensures id !in used
  {
    id := 0;
    var left := used;
    while left != {}
      invariant left <= used && forall i :: i in used && i !in left ==> i < id
    {
      var i := Pick(left);
      left := left - {i};
      if i >= id { id := i + 1; }
    }
  }

  /** cleanupGrokOAuthFlowsLocked, cleanupPKCEOAuthFlowsLocked */
  method CleanupLocked<D>(t: Table<D>, now: int) returns (r: Table<D>)
    requires TableInv(t)
    ensures r == Cleanup(t, now) && TableInv(r)
  {
    var ids := ExpiredIds(t.flows, now);
    r := DropEach(t, ids);
    DropKeepsInv(t, ids);
  }

  /** Server.Close: every pending login goes, and its client is closed. */
  method ShutdownLocked<D>(t: Table<D>) returns (r: Table<D>)
    requires TableInv(t)
    ensures r == Shutdown(t) && TableInv(r) && r.flows == map[]
  {
    DropKeepsInv(t, t.flows.Keys);
    assert t.flows - t.flows.Keys == map[];
    r := DropEach(t, t.flows.Keys);
  }
}

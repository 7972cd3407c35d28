/** The WebSocket client's message paths: a bounded memory queue, a store it overflows into,
    and sessions that redeliver the store before they drain the queue. */
module WsQueue {
  import opened Wrappers

  const OUTBOX_CAPACITY: nat := 1024

  /** 24 hours, in milliseconds. */
  const WS_MESSAGE_TTL: nat := 24 * 60 * 60 * 1000

  type Bytes = seq<bv8>

  datatype Outgoing = Text(text: string) | Binary(data: Bytes) | Ping(data: Bytes)

  datatype Kind = TextKind | BinaryKind | PingKind

  /** The base64 functions, which this model does not look into. */
  datatype Codec = Codec(encode: Bytes -> string, decode: string -> Option<Bytes>)

  ghost predicate Faithful(codec: Codec) {
    forall data: Bytes :: codec.decode(codec.encode(data)) == Some(data)
  }

  function MessageType(m: Outgoing): Kind {
    match m
    case Text(_) => TextKind
    case Binary(_) => BinaryKind
    case Ping(_) => PingKind
  }

  function Encoded(codec: Codec, m: Outgoing): string {
    match m
    case Text(text) => text
    case Binary(data) => codec.encode(data)
    case Ping(data) => codec.encode(data)
  }

  function FromRecord(codec: Codec, kind: Kind, payload: string): Option<Outgoing> {
    match kind
    case TextKind => Some(Text(payload))
    case BinaryKind => (match codec.decode(payload) case Some(data) => Some(Binary(data)) case None => None)
    case PingKind => (match codec.decode(payload) case Some(data) => Some(Ping(data)) case None => None)
  }

  /** What is written to the store is what comes back. */
  lemma RecordRoundTrip(codec: Codec, m: Outgoing)
    requires Faithful(codec)
    ensures FromRecord(codec, MessageType(m), Encoded(codec, m)) == Some(m)
  {
    if !m.Text? {
      assert codec.decode(codec.encode(m.data)) == Some(m.data);
    }
  }

  type MsgId = nat

  datatype Msg = Msg(id: MsgId, body: Outgoing)

  /** A row of `ws_messages`; `id` is the row's own id. */
  datatype Record = Record(id: MsgId, kind: Kind, payload: string, createdAt: int)

  datatype Phase =
    | Down
    | Purging
    | Listing
    | Open
    | Sending(msg: Msg, stored: bool)
    | Deleting(id: MsgId)
    | Stopped

  datatype Delivery = Delivery(msg: Msg, stored: bool)

  /** How a memory message left the queue. */
  datatype Departure = Departure(id: MsgId, delivered: bool)

  /** `hasStore` says whether a pool is configured. `accepted*`, `delivered`, `left`, `purged`,
      `deleted` and `sessions` only record what happened. */
  datatype State = State(
    hasStore: bool,
    phase: Phase,
    outbox: seq<Msg>,
    pending: map<MsgId, Outgoing>,
    store: map<MsgId, Record>,
    persisted: seq<Msg>,
    now: int,
    used: set<MsgId>,
    queued: seq<MsgId>,
    accepted: map<MsgId, Outgoing>,
    delivered: seq<Delivery>,
    left: seq<Departure>,
    purged: set<MsgId>,
    deleted: set<MsgId>,
    sessions: nat)

  datatype Action =
    | Send(id: MsgId, body: Outgoing)
    | Persisted(id: MsgId, createdAt: int)
    | PersistFailed(id: MsgId)
    | Connect
    | Purge(ok: bool)
    | ListPending(ok: bool, rows: seq<Record>)
    | Pop
    | SendOk
    | SendFailed
    | DeleteDone(ok: bool)
    | EndSession
    | Stop
    | Tick(now: int)

  function Init(hasStore: bool, store: map<MsgId, Record>, now: int): State {
    State(hasStore, Down, [], map[], store, [], now, store.Keys, [], map[], [], [], {}, {}, 0)
  }

  /** `ORDER BY created_at`; rows of equal age come in any order. */
  predicate IsListing(rows: seq<Record>, store: map<MsgId, Record>) {
    && (forall i | 0 <= i < |rows| :: rows[i].id in store && store[rows[i].id] == rows[i])
    && (forall i, j | 0 <= i < j < |rows| :: rows[i].id != rows[j].id && rows[i].createdAt <= rows[j].createdAt)
    && (forall id | id in store :: exists i | 0 <= i < |rows| :: rows[i].id == id)
  }

  lemma {:induction false} NewestExists(store: map<MsgId, Record>) returns (id: MsgId)
    requires store != map[]
    ensures id in store && forall k | k in store :: store[k].createdAt <= store[id].createdAt
    decreases |store.Keys|
  {
    var k :| k in store;
    var rest := store - {k};
    assert rest.Keys == store.Keys - {k};
    if rest == map[] {
      id := k;
      assert forall x | x in store :: x == k || x in rest;
    } else {
      id := NewestExists(rest);
      assert forall x | x in store :: x == k || (x in rest && rest[x] == store[x]);
      if store[k].createdAt > store[id].createdAt { id := k; }
    }
  }

  /** Every store has a listing: what the query returns is one of them. */
  lemma {:induction false} ListingExists(store: map<MsgId, Record>) returns (rows: seq<Record>)
    requires forall id | id in store :: store[id].id == id
    ensures IsListing(rows, store)
    decreases |store.Keys|
  {
    if store == map[] {
      rows := [];
    } else {
      var id := NewestExists(store);
      var rest := store - {id};
      assert rest.Keys == store.Keys - {id};
      var before := ListingExists(rest);
      rows := before + [store[id]];
      assert forall k | k in store :: k == id || (k in rest && rest[k] == store[k]);
      ListingGrows(before, rest, store, id);
    }
  }

  lemma ListingGrows(rows: seq<Record>, rest: map<MsgId, Record>, store: map<MsgId, Record>, id: MsgId)
    requires IsListing(rows, rest) && id in store && id !in rest && store[id].id == id
    requires forall k | k in store :: k == id || (k in rest && rest[k] == store[k])
    requires forall k | k in rest :: k in store && store[k] == rest[k] && rest[k].createdAt <= store[id].createdAt
    ensures IsListing(rows + [store[id]], store)
  {
    var more := rows + [store[id]];
    forall k | k in store ensures exists i | 0 <= i < |more| :: more[i].id == k {
      if k == id {
        assert more[|rows|].id == k;
      } else {
        assert k in rest;
        var i :| 0 <= i < |rows| && rows[i].id == k;
        assert more[i].id == k;
      }
    }
  }

  predicate Enabled(s: State, a: Action) {
    match a
    case Send(id, _) => id !in s.used && !s.phase.Stopped?
    case Persisted(id, createdAt) => id in s.pending && createdAt <= s.now
    case PersistFailed(id) => id in s.pending
    case Connect => s.phase.Down?
    case Purge(_) => s.phase.Purging?
    case ListPending(_, rows) => s.phase.Listing? && IsListing(rows, s.store)
    case Pop => s.phase.Open? && (s.persisted != [] || s.outbox != [])
    case SendOk => s.phase.Sending?
    case SendFailed => s.phase.Sending?
    case DeleteDone(_) => s.phase.Deleting?
    case EndSession => s.phase.Open?
    case Stop => s.phase.Down? || s.phase.Open?
    case Tick(now) => s.now <= now
  }

  /** `filter_map` over the rows: undecodable payloads are dropped from the redelivery queue. */
  function Decoded(codec: Codec, rows: seq<Record>): seq<Msg> {
    if rows == [] then []
    else
      var m := FromRecord(codec, rows[0].kind, rows[0].payload);
      (if m.Some? then [Msg(rows[0].id, m.value)] else []) + Decoded(codec, rows[1..])
  }

  function Expired(s: State): set<MsgId> {
    set id | id in s.store && s.store[id].createdAt < s.now - WS_MESSAGE_TTL
  }

  /** `send_message`: the memory queue, or the store when it is full and there is one. */
  function SendStep(s: State, id: MsgId, body: Outgoing): State {
    var s1 := s.(used := s.used + {id});
    if |s.outbox| < OUTBOX_CAPACITY then
      s1.(outbox := s.outbox + [Msg(id, body)], queued := s.queued + [id], accepted := s.accepted[id := body])
    else if s.hasStore then s1.(pending := s.pending[id := body])
    else s1
  }

  /** `persist_overflow` has stored the message. */
  function PersistedStep(codec: Codec, s: State, id: MsgId, createdAt: int): State
    requires id in s.pending
  {
    var body := s.pending[id];
    s.(pending := s.pending - {id}, accepted := s.accepted[id := body],
       store := s.store[id := Record(id, MessageType(body), Encoded(codec, body), createdAt)])
  }

  /** `next_outgoing`: redelivery first, then the memory queue. */
  function PopStep(s: State): State
    requires s.persisted != [] || s.outbox != []
  {
    if s.persisted != [] then s.(phase := Sending(s.persisted[0], true), persisted := s.persisted[1..])
    else s.(phase := Sending(s.outbox[0], false), outbox := s.outbox[1..])
  }

  function Down_(s: State): State {
    s.(phase := Down, persisted := [])
  }

  function SendOkStep(s: State): State
    requires s.phase.Sending?
  {
    var m := s.phase.msg;
    var s1 := s.(delivered := s.delivered + [Delivery(m, s.phase.stored)]);
    if s.phase.stored then s1.(phase := if s.hasStore then Deleting(m.id) else Open)
    else s1.(phase := Open, left := s.left + [Departure(m.id, true)])
  }

  function SendFailedStep(s: State): State
    requires s.phase.Sending?
  {
    if s.phase.stored then Down_(s)
    else Down_(s).(left := s.left + [Departure(s.phase.msg.id, false)])
  }

  function Apply(codec: Codec, s: State, a: Action): State
    requires Enabled(s, a)
  {
    match a
    case Send(id, body) => SendStep(s, id, body)
    case Persisted(id, createdAt) => PersistedStep(codec, s, id, createdAt)
    case PersistFailed(id) => s.(pending := s.pending - {id})
    case Connect => s.(phase := Purging, sessions := s.sessions + 1)
    case Purge(ok) =>
      if s.hasStore && ok then s.(phase := Listing, store := s.store - Expired(s), purged := s.purged + Expired(s))
      else s.(phase := Listing)
    case ListPending(ok, rows) =>
      s.(phase := Open, persisted := if s.hasStore && ok then Decoded(codec, rows) else [])
    case Pop => PopStep(s)
    case SendOk => SendOkStep(s)
    case SendFailed => SendFailedStep(s)
    case DeleteDone(ok) =>
      if ok then s.(phase := Open, store := s.store - {s.phase.id}, deleted := s.deleted + {s.phase.id})
      else s.(phase := Open)
    case EndSession => Down_(s)
    case Stop => s.(phase := Stopped, persisted := [], outbox := [])
    case Tick(now) => s.(now := now)
  }

  predicate Run(codec: Codec, s: State, actions: seq<Action>)
    decreases |actions|
  {
    actions == [] || (Enabled(s, actions[0]) && Run(codec, Apply(codec, s, actions[0]), actions[1..]))
  }

  function Exec(codec: Codec, s: State, actions: seq<Action>): State
    requires Run(codec, s, actions)
    decreases |actions|
  {
    if actions == [] then s else Exec(codec, Apply(codec, s, actions[0]), actions[1..])
  }

  // ---------- The memory queue ----------

  function Ids(ms: seq<Msg>): seq<MsgId> {
    seq(|ms|, i requires 0 <= i < |ms| => ms[i].id)
  }

  function DepartedIds(left: seq<Departure>): seq<MsgId> {
    seq(|left|, i requires 0 <= i < |left| => left[i].id)
  }

  /** The memory message being sent, if any. */
  function InHand(s: State): seq<MsgId> {
    if s.phase.Sending? && !s.phase.stored then [s.phase.msg.id] else []
  }

  function Losses(left: seq<Departure>): nat {
    if left == [] then 0
    else Losses(left[..|left| - 1]) + (if left[|left| - 1].delivered then 0 else 1)
  }

  /** The memory messages delivered, in the order of departure. */
  function Arrivals(left: seq<Departure>): seq<MsgId> {
    if left == [] then []
    else Arrivals(left[..|left| - 1]) + (if left[|left| - 1].delivered then [left[|left| - 1].id] else [])
  }

  /** The memory messages among the deliveries, in the order of delivery. */
  function MemoryDeliveries(delivered: seq<Delivery>): seq<MsgId> {
    if delivered == [] then []
    else MemoryDeliveries(delivered[..|delivered| - 1])
         + (if delivered[|delivered| - 1].stored then [] else [delivered[|delivered| - 1].msg.id])
  }

  predicate SessionLive(s: State) {
    !s.phase.Down? && !s.phase.Stopped?
  }

  ghost predicate Distinct(ids: seq<MsgId>) {
    forall i, j | 0 <= i < j < |ids| :: ids[i] != ids[j]
  }

  /** The accepted ids split, in order, into the departed, the one in hand and the waiting. */
  ghost predicate InOrder(running: bool, queued: seq<MsgId>, left: seq<Departure>, hand: seq<MsgId>, outbox: seq<Msg>) {
    if running then queued == DepartedIds(left) + hand + Ids(outbox) else DepartedIds(left) <= queued
  }

  /** Accepted memory messages leave in acceptance order, one at a time, and the rest waits in
      the bounded queue; at most one is lost per session, and then the session is over. */
  ghost predicate MemoryInv(s: State) {
    && |s.outbox| <= OUTBOX_CAPACITY
    && InOrder(!s.phase.Stopped?, s.queued, s.left, InHand(s), s.outbox)
    && Distinct(s.queued)
    && MemoryDeliveries(s.delivered) == Arrivals(s.left)
    && Losses(s.left) + (if SessionLive(s) then 1 else 0) <= s.sessions
  }

  // ---------- The store ----------

  function DeliveredIds(delivered: seq<Delivery>): set<MsgId> {
    set i | 0 <= i < |delivered| :: delivered[i].msg.id
  }

  /** Row `id` of the store holds `body`. */
  predicate Holds(codec: Codec, store: map<MsgId, Record>, id: MsgId, body: Outgoing) {
    id in store && store[id].id == id && FromRecord(codec, store[id].kind, store[id].payload) == Some(body)
  }

  /** The stored message being sent, or sent and about to be deleted, if any. */
  function StoredInHand(s: State): set<MsgId> {
    match s.phase
    case Sending(msg, stored) => if stored then {msg.id} else {}
    case Deleting(id) => {id}
    case _ => {}
  }

  /** Everything queued for redelivery has its row, and nothing is queued twice. */
  ghost predicate RedeliveryOk(codec: Codec, store: map<MsgId, Record>, persisted: seq<Msg>, hand: set<MsgId>) {
    && (forall i | 0 <= i < |persisted| :: Holds(codec, store, persisted[i].id, persisted[i].body))
    && (forall i | 0 <= i < |persisted| :: persisted[i].id !in hand)
    && (forall i, j | 0 <= i < j < |persisted| :: persisted[i].id != persisted[j].id)
  }

  /** A row is deleted after a delivery of its own; what is redelivered is in the store. */
  ghost predicate StoreInv(codec: Codec, s: State) {
    && s.deleted <= DeliveredIds(s.delivered)
    && RedeliveryOk(codec, s.store, s.persisted, StoredInHand(s))
    && (s.phase.Sending? && s.phase.stored ==> Holds(codec, s.store, s.phase.msg.id, s.phase.msg.body))
    && (s.phase.Deleting? ==> s.phase.id in DeliveredIds(s.delivered))
    && (s.phase.Down? || s.phase.Purging? || s.phase.Listing? || s.phase.Stopped? ==> s.persisted == [])
  }

  /** `prior` are the rows an earlier run left behind. Each accepted message went to the memory
      queue or got a row of its own. */
  ghost predicate IdsOk(prior: set<MsgId>, s: State) {
    && s.accepted.Keys + s.pending.Keys + s.store.Keys + prior <= s.used
    && s.accepted.Keys !! s.pending.Keys
    && prior !! (s.accepted.Keys + s.pending.Keys)
    && s.store.Keys <= prior + s.accepted.Keys
    && (forall i | 0 <= i < |s.queued| :: s.queued[i] in s.accepted && s.queued[i] !in s.store)
  }

  /** The row of an accepted message is in the store, or was deleted or purged. */
  ghost predicate RowsOk(codec: Codec, queued: seq<MsgId>, accepted: map<MsgId, Outgoing>, store: map<MsgId, Record>, gone: set<MsgId>) {
    forall id | id in accepted && id !in queued :: Holds(codec, store, id, accepted[id]) || id in gone
  }

  ghost predicate AcceptedInv(codec: Codec, prior: set<MsgId>, s: State) {
    IdsOk(prior, s) && RowsOk(codec, s.queued, s.accepted, s.store, s.deleted + s.purged)
  }

  /** `m` is what was accepted under its id, or a row of an earlier run. */
  predicate Genuine(prior: set<MsgId>, accepted: map<MsgId, Outgoing>, m: Msg) {
    m.id in prior || (m.id in accepted && accepted[m.id] == m.body)
  }

  ghost predicate DeliveriesGenuine(prior: set<MsgId>, accepted: map<MsgId, Outgoing>, delivered: seq<Delivery>) {
    forall i | 0 <= i < |delivered| :: Genuine(prior, accepted, delivered[i].msg)
  }

  ghost predicate AllGenuine(prior: set<MsgId>, accepted: map<MsgId, Outgoing>, ms: seq<Msg>) {
    forall i | 0 <= i < |ms| :: Genuine(prior, accepted, ms[i])
  }

  /** Nothing is delivered, or about to be, that differs from what was accepted. */
  ghost predicate ContentInv(codec: Codec, prior: set<MsgId>, s: State) {
    && DeliveriesGenuine(prior, s.accepted, s.delivered)
    && AllGenuine(prior, s.accepted, s.outbox)
    && (s.phase.Sending? ==> Genuine(prior, s.accepted, s.phase.msg))
    && (forall id | id in s.store && id !in prior :: id in s.accepted && Holds(codec, s.store, id, s.accepted[id]))
  }

  ghost predicate Inv(codec: Codec, prior: set<MsgId>, s: State) {
    MemoryInv(s) && StoreInv(codec, s) && AcceptedInv(codec, prior, s) && ContentInv(codec, prior, s)
  }

  /** The row a redelivered message comes from. */
  lemma {:induction false} RowOf(codec: Codec, rows: seq<Record>, i: nat) returns (j: nat)
    requires i < |Decoded(codec, rows)|
    ensures j < |rows| && rows[j].id == Decoded(codec, rows)[i].id
    ensures FromRecord(codec, rows[j].kind, rows[j].payload) == Some(Decoded(codec, rows)[i].body)
  {
    var d := |Decoded(codec, rows)| - |Decoded(codec, rows[1..])|;
    if i < d {
      j := 0;
    } else {
      j := RowOf(codec, rows[1..], i - d);
      j := j + 1;
    }
  }

  lemma {:induction false} DecodedOnce(codec: Codec, rows: seq<Record>, i: nat, j: nat)
    requires forall x, y | 0 <= x < y < |rows| :: rows[x].id != rows[y].id
    requires i < j < |Decoded(codec, rows)|
    ensures Decoded(codec, rows)[i].id != Decoded(codec, rows)[j].id
  {
    var rest := Decoded(codec, rows[1..]);
    var d := |Decoded(codec, rows)| - |rest|;
    if i >= d {
      DecodedOnce(codec, rows[1..], i - d, j - d);
    } else {
      var k := RowOf(codec, rows[1..], j - d);
      assert rows[0].id != rows[k + 1].id;
    }
  }

  /** Every row that decodes is queued for redelivery, with its body. */
  lemma {:induction false} DecodedKeepsRows(codec: Codec, rows: seq<Record>, j: nat, body: Outgoing)
    requires j < |rows| && FromRecord(codec, rows[j].kind, rows[j].payload) == Some(body)
    ensures Msg(rows[j].id, body) in Decoded(codec, rows)
  {
    if j > 0 {
      DecodedKeepsRows(codec, rows[1..], j - 1, body);
    }
  }

  lemma EnqueueInOrder(queued: seq<MsgId>, left: seq<Departure>, hand: seq<MsgId>, outbox: seq<Msg>, m: Msg)
    requires InOrder(true, queued, left, hand, outbox)
    ensures InOrder(true, queued + [m.id], left, hand, outbox + [m])
  {
    assert Ids(outbox + [m]) == Ids(outbox) + [m.id];
  }

  lemma DequeueInOrder(queued: seq<MsgId>, left: seq<Departure>, outbox: seq<Msg>)
    requires InOrder(true, queued, left, [], outbox) && outbox != []
    ensures InOrder(true, queued, left, [outbox[0].id], outbox[1..])
  {
    assert Ids(outbox) == [outbox[0].id] + Ids(outbox[1..]);
  }

  lemma DepartInOrder(queued: seq<MsgId>, left: seq<Departure>, d: Departure, outbox: seq<Msg>)
    requires InOrder(true, queued, left, [d.id], outbox)
    ensures InOrder(true, queued, left + [d], [], outbox)
    ensures Arrivals(left + [d]) == Arrivals(left) + (if d.delivered then [d.id] else [])
    ensures Losses(left + [d]) == Losses(left) + (if d.delivered then 0 else 1)
  {
    LossesSnoc(left, d);
    assert (left + [d])[..|left|] == left;
    assert DepartedIds(left + [d]) == DepartedIds(left) + [d.id];
  }

  lemma DeliverOne(delivered: seq<Delivery>, d: Delivery)
    ensures MemoryDeliveries(delivered + [d]) == MemoryDeliveries(delivered) + (if d.stored then [] else [d.msg.id])
    ensures DeliveredIds(delivered + [d]) == DeliveredIds(delivered) + {d.msg.id}
  {
    var all := delivered + [d];
    assert all[..|delivered|] == delivered;
    assert all[|delivered|] == d;
    assert forall i | 0 <= i < |delivered| :: all[i] == delivered[i];
  }

  lemma DistinctSnoc(ids: seq<MsgId>, id: MsgId)
    requires Distinct(ids) && forall i | 0 <= i < |ids| :: ids[i] != id
    ensures Distinct(ids + [id])
  {
  }

  lemma QueueingKeepsMemory(s: State, id: MsgId, body: Outgoing)
    requires MemoryInv(s) && !s.phase.Stopped? && |s.outbox| < OUTBOX_CAPACITY
    requires forall i | 0 <= i < |s.queued| :: s.queued[i] != id
    ensures MemoryInv(SendStep(s, id, body))
  {
    EnqueueInOrder(s.queued, s.left, InHand(s), s.outbox, Msg(id, body));
    DistinctSnoc(s.queued, id);
  }

  lemma QueueingKeepsStore(codec: Codec, s: State, id: MsgId, body: Outgoing)
    requires StoreInv(codec, s)
    ensures StoreInv(codec, SendStep(s, id, body))
  {
  }

  lemma QueueingKeepsIds(codec: Codec, prior: set<MsgId>, s: State, id: MsgId, body: Outgoing)
    requires AcceptedInv(codec, prior, s) && Enabled(s, Send(id, body)) && |s.outbox| < OUTBOX_CAPACITY
    ensures AcceptedInv(codec, prior, SendStep(s, id, body))
  {
    var s' := SendStep(s, id, body);
    assert forall x | x in s'.accepted && x !in s'.queued :: x in s.accepted && x !in s.queued;
  }

  lemma QueueingKeepsInv(codec: Codec, prior: set<MsgId>, s: State, id: MsgId, body: Outgoing)
    requires Inv(codec, prior, s) && Enabled(s, Send(id, body)) && |s.outbox| < OUTBOX_CAPACITY
    ensures Inv(codec, prior, SendStep(s, id, body))
  {
    QueueingKeepsMemory(s, id, body);
    QueueingKeepsStore(codec, s, id, body);
    QueueingKeepsIds(codec, prior, s, id, body);
    QueueingKeepsContent(codec, prior, s, id, body);
  }

  lemma QueueingKeepsContent(codec: Codec, prior: set<MsgId>, s: State, id: MsgId, body: Outgoing)
    requires ContentInv(codec, prior, s) && id !in s.accepted && |s.outbox| < OUTBOX_CAPACITY
    ensures ContentInv(codec, prior, SendStep(s, id, body))
  {
  }

  lemma OverflowKeepsInv(codec: Codec, prior: set<MsgId>, s: State, id: MsgId, body: Outgoing)
    requires Inv(codec, prior, s) && Enabled(s, Send(id, body)) && |s.outbox| >= OUTBOX_CAPACITY
    ensures Inv(codec, prior, SendStep(s, id, body))
  {
  }

  lemma PersistedKeepsStore(codec: Codec, s: State, id: MsgId, createdAt: int)
    requires StoreInv(codec, s) && id in s.pending && id !in s.store
    ensures StoreInv(codec, PersistedStep(codec, s, id, createdAt))
  {
    var s' := PersistedStep(codec, s, id, createdAt);
    forall x, body | Holds(codec, s.store, x, body) ensures Holds(codec, s'.store, x, body) {
      assert x != id;
    }
  }

  lemma PersistedKeepsAccepted(codec: Codec, prior: set<MsgId>, s: State, id: MsgId, createdAt: int)
    requires AcceptedInv(codec, prior, s) && id in s.pending && Faithful(codec)
    ensures AcceptedInv(codec, prior, PersistedStep(codec, s, id, createdAt))
  {
    RecordRoundTrip(codec, s.pending[id]);
  }

  lemma PersistedKeepsContent(codec: Codec, prior: set<MsgId>, s: State, id: MsgId, createdAt: int)
    requires ContentInv(codec, prior, s) && id in s.pending && id !in s.accepted && Faithful(codec)
    ensures ContentInv(codec, prior, PersistedStep(codec, s, id, createdAt))
  {
    RecordRoundTrip(codec, s.pending[id]);
  }

  lemma PersistedKeepsInv(codec: Codec, prior: set<MsgId>, s: State, id: MsgId, createdAt: int)
    requires Inv(codec, prior, s) && Enabled(s, Persisted(id, createdAt)) && Faithful(codec)
    ensures Inv(codec, prior, PersistedStep(codec, s, id, createdAt))
  {
    assert id !in s.accepted && id !in s.store;
    PersistedKeepsStore(codec, s, id, createdAt);
    PersistedKeepsAccepted(codec, prior, s, id, createdAt);
    PersistedKeepsContent(codec, prior, s, id, createdAt);
    SameMemory(s, PersistedStep(codec, s, id, createdAt));
  }

  /** A step that leaves the memory queue and its bookkeeping alone. */
  lemma SameMemory(s: State, s': State)
    requires MemoryInv(s) && s'.phase == s.phase && s'.outbox == s.outbox && s'.queued == s.queued
    requires s'.left == s.left && s'.delivered == s.delivered && s'.sessions == s.sessions
    ensures MemoryInv(s')
  {
  }

  lemma PurgeKeepsInv(codec: Codec, prior: set<MsgId>, s: State, ok: bool)
    requires Inv(codec, prior, s) && Enabled(s, Purge(ok))
    ensures Inv(codec, prior, Apply(codec, s, Purge(ok)))
  {
  }

  lemma ListKeepsInv(codec: Codec, prior: set<MsgId>, s: State, ok: bool, rows: seq<Record>)
    requires Inv(codec, prior, s) && Enabled(s, ListPending(ok, rows))
    ensures Inv(codec, prior, Apply(codec, s, ListPending(ok, rows)))
  {
    var s' := Apply(codec, s, ListPending(ok, rows));
    forall i | 0 <= i < |s'.persisted|
      ensures Holds(codec, s'.store, s'.persisted[i].id, s'.persisted[i].body)
    {
      var j := RowOf(codec, rows, i);
      assert s.store[rows[j].id] == rows[j];
    }
    forall i, j | 0 <= i < j < |s'.persisted|
      ensures s'.persisted[i].id != s'.persisted[j].id
    {
      DecodedOnce(codec, rows, i, j);
    }
  }

  lemma PopStoredKeepsInv(codec: Codec, prior: set<MsgId>, s: State)
    requires Inv(codec, prior, s) && Enabled(s, Pop) && s.persisted != []
    ensures Inv(codec, prior, PopStep(s))
  {
    var m := s.persisted[0];
    assert Holds(codec, s.store, m.id, m.body);
    assert RedeliveryOk(codec, s.store, s.persisted[1..], {m.id});
  }

  lemma PopQueuedKeepsInv(codec: Codec, prior: set<MsgId>, s: State)
    requires Inv(codec, prior, s) && Enabled(s, Pop) && s.persisted == []
    ensures Inv(codec, prior, PopStep(s))
  {
    DequeueInOrder(s.queued, s.left, s.outbox);
  }

  lemma StoredSentKeepsMemory(s: State)
    requires MemoryInv(s) && s.phase.Sending? && s.phase.stored
    ensures MemoryInv(SendOkStep(s))
  {
    DeliverOne(s.delivered, Delivery(s.phase.msg, true));
  }

  lemma StoredSentKeepsStore(codec: Codec, s: State)
    requires StoreInv(codec, s) && s.phase.Sending? && s.phase.stored
    ensures StoreInv(codec, SendOkStep(s))
  {
    DeliverOne(s.delivered, Delivery(s.phase.msg, true));
  }

  lemma SentKeepsAccepted(codec: Codec, prior: set<MsgId>, s: State)
    requires AcceptedInv(codec, prior, s) && s.phase.Sending?
    ensures AcceptedInv(codec, prior, SendOkStep(s))
  {
    SameAccepted(codec, prior, s, SendOkStep(s));
  }

  lemma StoredSentKeepsInv(codec: Codec, prior: set<MsgId>, s: State)
    requires Inv(codec, prior, s) && Enabled(s, SendOk) && s.phase.stored
    ensures Inv(codec, prior, SendOkStep(s))
  {
    StoredSentKeepsMemory(s);
    StoredSentKeepsStore(codec, s);
    SentKeepsContent(codec, prior, s);
    SentKeepsAccepted(codec, prior, s);
  }

  lemma QueuedSentKeepsMemory(s: State)
    requires MemoryInv(s) && s.phase.Sending? && !s.phase.stored
    ensures MemoryInv(SendOkStep(s))
  {
    DeliverOne(s.delivered, Delivery(s.phase.msg, false));
    DepartInOrder(s.queued, s.left, Departure(s.phase.msg.id, true), s.outbox);
  }

  lemma QueuedSentKeepsStore(codec: Codec, s: State)
    requires StoreInv(codec, s) && s.phase.Sending? && !s.phase.stored
    ensures StoreInv(codec, SendOkStep(s))
  {
    DeliverOne(s.delivered, Delivery(s.phase.msg, false));
  }

  lemma SentKeepsContent(codec: Codec, prior: set<MsgId>, s: State)
    requires ContentInv(codec, prior, s) && s.phase.Sending?
    ensures ContentInv(codec, prior, SendOkStep(s))
  {
  }

  lemma QueuedSentKeepsInv(codec: Codec, prior: set<MsgId>, s: State)
    requires Inv(codec, prior, s) && Enabled(s, SendOk) && !s.phase.stored
    ensures Inv(codec, prior, SendOkStep(s))
  {
    QueuedSentKeepsMemory(s);
    QueuedSentKeepsStore(codec, s);
    SentKeepsContent(codec, prior, s);
    SentKeepsAccepted(codec, prior, s);
  }

  lemma SameAccepted(codec: Codec, prior: set<MsgId>, s: State, s': State)
    requires AcceptedInv(codec, prior, s) && s'.accepted == s.accepted && s'.pending == s.pending && s'.store == s.store
    requires s'.used == s.used && s'.queued == s.queued && s'.deleted == s.deleted && s'.purged == s.purged
    ensures AcceptedInv(codec, prior, s')
  {
  }

  lemma FailureKeepsMemory(s: State)
    requires MemoryInv(s) && s.phase.Sending?
    ensures MemoryInv(SendFailedStep(s))
  {
    if !s.phase.stored {
      DepartInOrder(s.queued, s.left, Departure(s.phase.msg.id, false), s.outbox);
    }
  }

  lemma FailureKeepsStore(codec: Codec, s: State)
    requires StoreInv(codec, s) && s.phase.Sending?
    ensures StoreInv(codec, SendFailedStep(s))
  {
  }

  lemma FailureKeepsAccepted(codec: Codec, prior: set<MsgId>, s: State)
    requires AcceptedInv(codec, prior, s) && s.phase.Sending?
    ensures AcceptedInv(codec, prior, SendFailedStep(s))
  {
    SameAccepted(codec, prior, s, SendFailedStep(s));
  }

  lemma FailureKeepsContent(codec: Codec, prior: set<MsgId>, s: State)
    requires ContentInv(codec, prior, s) && s.phase.Sending?
    ensures ContentInv(codec, prior, SendFailedStep(s))
  {
  }

  lemma SendFailedKeepsInv(codec: Codec, prior: set<MsgId>, s: State)
    requires Inv(codec, prior, s) && Enabled(s, SendFailed)
    ensures Inv(codec, prior, SendFailedStep(s))
  {
    FailureKeepsMemory(s);
    FailureKeepsStore(codec, s);
    FailureKeepsContent(codec, prior, s);
    FailureKeepsAccepted(codec, prior, s);
  }

  lemma DeleteKeepsInv(codec: Codec, prior: set<MsgId>, s: State, ok: bool)
    requires Inv(codec, prior, s) && Enabled(s, DeleteDone(ok))
    ensures Inv(codec, prior, Apply(codec, s, DeleteDone(ok)))
  {
  }

  lemma OtherStepsKeepInv(codec: Codec, prior: set<MsgId>, s: State, a: Action)
    requires Inv(codec, prior, s) && Enabled(s, a)
    requires a.PersistFailed? || a.Connect? || a.EndSession? || a.Stop? || a.Tick?
    ensures Inv(codec, prior, Apply(codec, s, a))
  {
  }

  lemma InvStep(codec: Codec, prior: set<MsgId>, s: State, a: Action)
    requires Inv(codec, prior, s) && Enabled(s, a) && Faithful(codec)
    ensures Inv(codec, prior, Apply(codec, s, a))
  {
    match a
    case Send(id, body) =>
      if |s.outbox| < OUTBOX_CAPACITY { QueueingKeepsInv(codec, prior, s, id, body); } else { OverflowKeepsInv(codec, prior, s, id, body); }
    case Persisted(id, createdAt) => PersistedKeepsInv(codec, prior, s, id, createdAt);
    case Purge(ok) => PurgeKeepsInv(codec, prior, s, ok);
    case ListPending(ok, rows) => ListKeepsInv(codec, prior, s, ok, rows);
    case Pop => if s.persisted != [] { PopStoredKeepsInv(codec, prior, s); } else { PopQueuedKeepsInv(codec, prior, s); }
    case SendOk => if s.phase.stored { StoredSentKeepsInv(codec, prior, s); } else { QueuedSentKeepsInv(codec, prior, s); }
    case SendFailed => SendFailedKeepsInv(codec, prior, s);
    case DeleteDone(ok) => DeleteKeepsInv(codec, prior, s, ok);
    case _ => OtherStepsKeepInv(codec, prior, s, a);
  }

  predicate KeyedById(store: map<MsgId, Record>) {
    forall id | id in store :: store[id].id == id
  }

  lemma {:induction false} RunKeepsInv(codec: Codec, prior: set<MsgId>, s: State, actions: seq<Action>)
    requires Inv(codec, prior, s) && Run(codec, s, actions) && Faithful(codec)
    ensures Inv(codec, prior, Exec(codec, s, actions))
    decreases |actions|
  {
    if actions != [] {
      InvStep(codec, prior, s, actions[0]);
      RunKeepsInv(codec, prior, Apply(codec, s, actions[0]), actions[1..]);
    }
  }

  // ---------- Conservation over whole runs ----------

  predicate Waiting(s: State, id: MsgId) {
    exists i | 0 <= i < |s.outbox| :: s.outbox[i].id == id
  }

  predicate InFlight(s: State, id: MsgId) {
    s.phase.Sending? && s.phase.msg.id == id
  }

  /** Delivered at least once, with the body it was accepted with. */
  predicate Delivered(s: State, id: MsgId, body: Outgoing) {
    exists i | 0 <= i < |s.delivered| :: s.delivered[i].msg == Msg(id, body)
  }

  /** Popped from memory by a session whose send then failed. */
  predicate Lost(s: State, id: MsgId) {
    Departure(id, false) in s.left
  }

  lemma {:induction false} ArrivalWasDelivered(left: seq<Departure>, id: MsgId)
    requires Departure(id, true) in left
    ensures id in Arrivals(left)
  {
    if left[|left| - 1] != Departure(id, true) {
      ArrivalWasDelivered(left[..|left| - 1], id);
    }
  }

  lemma {:induction false} DeliveryIsOfThatId(delivered: seq<Delivery>, id: MsgId)
    requires id in MemoryDeliveries(delivered)
    ensures id in DeliveredIds(delivered)
  {
    var n := |delivered| - 1;
    if delivered[n].stored || delivered[n].msg.id != id {
      DeliveryIsOfThatId(delivered[..n], id);
      var i :| 0 <= i < n && delivered[..n][i].msg.id == id;
      assert delivered[i].msg.id == id;
    }
  }

  /** As long as the client runs, every accepted message is waiting in memory, in the store with
      its content, in flight, delivered with its content, purged, or lost by a failed send. */
  lemma EveryMessageIsAccountedFor(
      codec: Codec, hasStore: bool, store: map<MsgId, Record>, now: int, actions: seq<Action>, id: MsgId)
    requires Faithful(codec) && KeyedById(store) && Run(codec, Init(hasStore, store, now), actions)
    requires var s := Exec(codec, Init(hasStore, store, now), actions);
             !s.phase.Stopped? && id in s.accepted
    ensures var s := Exec(codec, Init(hasStore, store, now), actions);
            || Waiting(s, id) || Holds(codec, s.store, id, s.accepted[id]) || InFlight(s, id)
            || Delivered(s, id, s.accepted[id]) || id in s.purged || Lost(s, id)
  {
    RunKeepsInv(codec, store.Keys, Init(hasStore, store, now), actions);
    var s := Exec(codec, Init(hasStore, store, now), actions);
    if id in s.queued {
      QueuedIsAccountedFor(s, id);
    }
    if id in DeliveredIds(s.delivered) {
      DeliveryIsGenuine(codec, store.Keys, s, id);
    }
  }

  /** What was queued in memory is there, in flight, or gone. */
  lemma QueuedIsSomewhere(s: State, id: MsgId)
    requires MemoryInv(s) && !s.phase.Stopped? && id in s.queued
    ensures Waiting(s, id) || InFlight(s, id) || id in DepartedIds(s.left)
  {
    InOneOf(DepartedIds(s.left), InHand(s), Ids(s.outbox), id);
    if id in Ids(s.outbox) {
      var k :| 0 <= k < |s.outbox| && s.outbox[k].id == id;
    }
  }

  lemma InOneOf(a: seq<MsgId>, b: seq<MsgId>, c: seq<MsgId>, id: MsgId)
    requires id in a + b + c
    ensures id in a || id in b || id in c
  {
  }

  lemma DepartedIsAccountedFor(s: State, id: MsgId)
    requires id in DepartedIds(s.left) && MemoryDeliveries(s.delivered) == Arrivals(s.left)
    ensures Lost(s, id) || id in DeliveredIds(s.delivered)
  {
    var k :| 0 <= k < |s.left| && s.left[k].id == id;
    if s.left[k].delivered {
      assert s.left[k] == Departure(id, true);
      ArrivalWasDelivered(s.left, id);
      DeliveryIsOfThatId(s.delivered, id);
    } else {
      assert s.left[k] == Departure(id, false);
    }
  }

  /** It is there, in flight, delivered or lost. */
  lemma QueuedIsAccountedFor(s: State, id: MsgId)
    requires MemoryInv(s) && !s.phase.Stopped? && id in s.queued
    ensures Waiting(s, id) || InFlight(s, id) || Lost(s, id) || id in DeliveredIds(s.delivered)
  {
    QueuedIsSomewhere(s, id);
    if id in DepartedIds(s.left) {
      DepartedIsAccountedFor(s, id);
    }
  }

  lemma DeliveryIsGenuine(codec: Codec, prior: set<MsgId>, s: State, id: MsgId)
    requires Inv(codec, prior, s) && id in s.accepted && id in DeliveredIds(s.delivered)
    ensures Delivered(s, id, s.accepted[id])
  {
    var i :| 0 <= i < |s.delivered| && s.delivered[i].msg.id == id;
    assert Genuine(prior, s.accepted, s.delivered[i].msg);
    assert s.delivered[i].msg == Msg(id, s.accepted[id]);
  }

  /** A row disappears only when its own message was just delivered, or by the purge of rows
      older than the retention period. */
  lemma RowsLeaveForAReason(codec: Codec, prior: set<MsgId>, s: State, a: Action, id: MsgId)
    requires Inv(codec, prior, s) && Enabled(s, a) && id in s.store
    requires id !in Apply(codec, s, a).store
    ensures (a.DeleteDone? && s.phase == Deleting(id) && id in DeliveredIds(s.delivered))
         || (a.Purge? && s.store[id].createdAt < s.now - WS_MESSAGE_TTL)
  {
    OnlyDeletionsShrink(codec, s, a, id);
  }

  lemma OnlyDeletionsShrink(codec: Codec, s: State, a: Action, id: MsgId)
    requires Enabled(s, a) && id in s.store && id !in Apply(codec, s, a).store
    ensures (a.DeleteDone? && s.phase == Deleting(id)) || (a.Purge? && id in Expired(s))
  {
  }

  /** What a client can do next: it connects, purges, lists, takes the next outgoing message when there is one,
      sends, and deletes what it redelivered, and is never stuck before it is stopped. */
  lemma SessionNeverStuck(s: State) returns (rows: seq<Record>)
    requires KeyedById(s.store)
    ensures s.phase.Down? ==> Enabled(s, Connect) && Enabled(s, Stop)
    ensures s.phase.Purging? ==> Enabled(s, Purge(true)) && Enabled(s, Purge(false))
    ensures s.phase.Listing? ==> Enabled(s, ListPending(true, rows)) && Enabled(s, ListPending(false, rows))
    ensures s.phase.Open? ==> Enabled(s, EndSession) && Enabled(s, Stop)
    ensures s.phase.Open? && s.persisted != [] ==> Enabled(s, Pop)
    ensures s.phase.Open? && s.outbox != [] ==> Enabled(s, Pop)
    ensures s.phase.Sending? ==> Enabled(s, SendOk) && Enabled(s, SendFailed)
    ensures s.phase.Deleting? ==> Enabled(s, DeleteDone(true)) && Enabled(s, DeleteDone(false))
    ensures forall id | id in s.pending :: Enabled(s, Persisted(id, s.now)) && Enabled(s, PersistFailed(id))
    ensures !s.phase.Stopped? ==> forall id, body | id !in s.used :: Enabled(s, Send(id, body))
  {
    rows := ListingExists(s.store);
  }

  /** The life of a session: connected, it purges and lists before it opens; a failed deletion or an end of the
      session loses nothing; only a stop drops the queue. */
  lemma SessionSteps(codec: Codec, s: State, rows: seq<Record>)
    ensures s.phase.Down? ==> var next := Apply(codec, s, Connect);
      next.phase == Purging && next.sessions == s.sessions + 1 && next.outbox == s.outbox && next.store == s.store
    ensures s.phase.Purging? ==>
      && Apply(codec, s, Purge(true)).phase == Listing && Apply(codec, s, Purge(false)) == s.(phase := Listing)
      && (!s.hasStore ==> Apply(codec, s, Purge(true)) == s.(phase := Listing))
    ensures s.phase.Listing? && IsListing(rows, s.store) ==>
      && Apply(codec, s, ListPending(true, rows)).phase == Open && Apply(codec, s, ListPending(false, rows)).phase == Open
      && Apply(codec, s, ListPending(false, rows)).persisted == []
      && (!s.hasStore ==> Apply(codec, s, ListPending(true, rows)).persisted == [])
    ensures s.phase.Deleting? ==>
      && Apply(codec, s, DeleteDone(true)).phase == Open
      && Apply(codec, s, DeleteDone(false)) == s.(phase := Open)
    ensures s.phase.Open? ==> Apply(codec, s, EndSession) == s.(phase := Down, persisted := [])
    ensures s.phase.Sending? ==> var next := Apply(codec, s, SendFailed);
      next.phase == Down && next.persisted == [] && next.outbox == s.outbox && next.store == s.store && next.delivered == s.delivered
    ensures s.phase.Down? || s.phase.Open? ==> Apply(codec, s, Stop) == s.(phase := Stopped, persisted := [], outbox := [])
  {
  }

  /** A message whose storing failed was reported as an error, and never arrives from the store. */
  lemma FailedStoringIsFinal(codec: Codec, prior: set<MsgId>, s: State, id: MsgId)
    requires Inv(codec, prior, s) && id in s.pending
    ensures var next := Apply(codec, s, PersistFailed(id)); id !in next.accepted && Gone(next, id)
  {
    if id in StoredInHand(s) {
      HandIsKnown(codec, prior, s);
    }
    forall i | 0 <= i < |s.persisted| ensures s.persisted[i].id != id {
      assert Holds(codec, s.store, s.persisted[i].id, s.persisted[i].body);
    }
  }

  lemma HandIsKnown(codec: Codec, prior: set<MsgId>, s: State)
    requires Inv(codec, prior, s)
    ensures StoredInHand(s) <= prior + s.accepted.Keys
  {
    if s.phase.Deleting? {
      var i :| 0 <= i < |s.delivered| && s.delivered[i].msg.id == s.phase.id;
      assert Genuine(prior, s.accepted, s.delivered[i].msg);
    }
  }

  /** A purge that succeeds leaves exactly the rows of the last 24 hours. */
  lemma PurgeKeepsTheLastDay(codec: Codec, s: State, id: MsgId)
    requires Enabled(s, Purge(true)) && s.hasStore
    ensures id in Apply(codec, s, Purge(true)).store <==> id in s.store && s.store[id].createdAt >= s.now - 86_400_000
    ensures id in s.store && id !in Apply(codec, s, Purge(true)).store ==> id in Apply(codec, s, Purge(true)).purged
  {
  }

  // ---------- A redelivered row goes ----------

  /** After a stored message was sent nothing can happen to the session but the deletion of its row,
      and the row is gone when that succeeds. */
  lemma RedeliveredRowIsDeleted(codec: Codec, s: State, m: Msg)
    requires s.phase == Sending(m, true) && s.hasStore
    ensures var sent := Apply(codec, s, SendOk);
      && sent.delivered == s.delivered + [Delivery(m, true)]
      && !Enabled(sent, Pop) && !Enabled(sent, EndSession) && !Enabled(sent, Connect) && !Enabled(sent, Stop)
      && Enabled(sent, DeleteDone(true)) && Enabled(sent, DeleteDone(false))
      && m.id !in Apply(codec, sent, DeleteDone(true)).store
      && Apply(codec, sent, DeleteDone(false)).store == s.store
  {
  }

  /** No row, no redelivery and no message on its way to the store has this id, and none will. */
  ghost predicate Gone(s: State, id: MsgId) {
    && id in s.used && id !in s.store && id !in s.pending && id !in StoredInHand(s)
    && forall i | 0 <= i < |s.persisted| :: s.persisted[i].id != id
  }

  lemma GoneStays(codec: Codec, s: State, a: Action, id: MsgId)
    requires Gone(s, id) && Enabled(s, a)
    ensures Gone(Apply(codec, s, a), id)
  {
    if a.ListPending? {
      ListingLeavesOut(codec, s.store, a.rows, id);
    } else if a.Send? || a.Persisted? || a.PersistFailed? {
      GoneWhileQueueing(codec, s, a, id);
    } else if a.Pop? || a.SendOk? || a.SendFailed? || a.DeleteDone? {
      GoneWhileSending(codec, s, a, id);
    }
  }

  lemma GoneWhileQueueing(codec: Codec, s: State, a: Action, id: MsgId)
    requires Gone(s, id) && Enabled(s, a) && (a.Send? || a.Persisted? || a.PersistFailed?)
    ensures Gone(Apply(codec, s, a), id)
  {
  }

  lemma GoneWhileSending(codec: Codec, s: State, a: Action, id: MsgId)
    requires Gone(s, id) && Enabled(s, a) && (a.Pop? || a.SendOk? || a.SendFailed? || a.DeleteDone?)
    ensures Gone(Apply(codec, s, a), id)
  {
  }

  lemma ListingLeavesOut(codec: Codec, store: map<MsgId, Record>, rows: seq<Record>, id: MsgId)
    requires IsListing(rows, store) && id !in store
    ensures forall i | 0 <= i < |Decoded(codec, rows)| :: Decoded(codec, rows)[i].id != id
  {
    forall i | 0 <= i < |Decoded(codec, rows)| ensures Decoded(codec, rows)[i].id != id {
      var j := RowOf(codec, rows, i);
    }
  }

  /** What is deleted is gone for good. */
  lemma DeletedIsGone(codec: Codec, prior: set<MsgId>, s: State, id: MsgId)
    requires Inv(codec, prior, s) && s.phase == Deleting(id)
    ensures Gone(Apply(codec, s, DeleteDone(true)), id)
  {
    var i :| 0 <= i < |s.delivered| && s.delivered[i].msg.id == id;
    assert Genuine(prior, s.accepted, s.delivered[i].msg);
  }

  /** How often the row of this id was delivered. */
  function Redeliveries(delivered: seq<Delivery>, id: MsgId): nat {
    if delivered == [] then 0
    else
      var last := delivered[|delivered| - 1];
      Redeliveries(delivered[..|delivered| - 1], id) + (if last.stored && last.msg.id == id then 1 else 0)
  }

  /** How often the run failed to delete the row of this id. */
  function FailedDeletions(codec: Codec, s: State, actions: seq<Action>, id: MsgId): nat
    requires Run(codec, s, actions)
    decreases |actions|
  {
    if actions == [] then 0
    else
      (if actions[0] == DeleteDone(false) && s.phase == Deleting(id) then 1 else 0)
      + FailedDeletions(codec, Apply(codec, s, actions[0]), actions[1..], id)
  }

  /** Only a client with a store redelivers. */
  predicate StoreIsUsed(s: State) {
    s.persisted != [] || (s.phase.Sending? && s.phase.stored) || s.phase.Deleting? ==> s.hasStore
  }

  /** Whether the row of this id may be delivered once more. */
  ghost function Chances(s: State, id: MsgId): nat {
    if s.phase == Deleting(id) || Gone(s, id) then 0 else 1
  }

  lemma RedeliveriesSnoc(delivered: seq<Delivery>, d: Delivery, id: MsgId)
    ensures Redeliveries(delivered + [d], id) == Redeliveries(delivered, id) + (if d.stored && d.msg.id == id then 1 else 0)
  {
    assert (delivered + [d])[..|delivered|] == delivered;
  }

  lemma ChancesStep(codec: Codec, prior: set<MsgId>, s: State, a: Action, id: MsgId)
    requires Inv(codec, prior, s) && StoreIsUsed(s) && Enabled(s, a)
    ensures var s' := Apply(codec, s, a);
      && StoreIsUsed(s')
      && Redeliveries(s'.delivered, id) + Chances(s', id)
         <= Redeliveries(s.delivered, id) + Chances(s, id) + (if a == DeleteDone(false) && s.phase == Deleting(id) then 1 else 0)
  {
    if a.SendOk? {
      RedeliveriesSnoc(s.delivered, Delivery(s.phase.msg, s.phase.stored), id);
    } else {
      OnlySendingDelivers(codec, s, a);
    }
    if Gone(s, id) {
      GoneStays(codec, s, a, id);
    } else if s.phase == Deleting(id) {
      DeletingLastsUntilDone(codec, s, a, id);
      if a == DeleteDone(true) { DeletedIsGone(codec, prior, s, id); }
    }
  }

  lemma OnlySendingDelivers(codec: Codec, s: State, a: Action)
    requires Enabled(s, a) && !a.SendOk?
    ensures Apply(codec, s, a).delivered == s.delivered
  {
  }

  lemma DeletingLastsUntilDone(codec: Codec, s: State, a: Action, id: MsgId)
    requires Enabled(s, a) && s.phase == Deleting(id)
    ensures a.DeleteDone? || Apply(codec, s, a).phase == Deleting(id)
  {
  }

  lemma {:induction false} ChancesRun(codec: Codec, prior: set<MsgId>, s: State, actions: seq<Action>, id: MsgId)
    requires Inv(codec, prior, s) && StoreIsUsed(s) && Faithful(codec) && Run(codec, s, actions)
    ensures var s' := Exec(codec, s, actions);
      Redeliveries(s'.delivered, id) + Chances(s', id)
      <= Redeliveries(s.delivered, id) + Chances(s, id) + FailedDeletions(codec, s, actions, id)
    decreases |actions|
  {
    if actions != [] {
      InvStep(codec, prior, s, actions[0]);
      ChancesStep(codec, prior, s, actions[0], id);
      ChancesRun(codec, prior, Apply(codec, s, actions[0]), actions[1..], id);
    }
  }

  /** In every run a stored row is delivered at most once more than its deletion failed. */
  lemma RowsAreDeliveredOnce(
      codec: Codec, hasStore: bool, store: map<MsgId, Record>, now: int, actions: seq<Action>, id: MsgId)
    requires Faithful(codec) && KeyedById(store) && Run(codec, Init(hasStore, store, now), actions)
    ensures Redeliveries(Exec(codec, Init(hasStore, store, now), actions).delivered, id)
         <= 1 + FailedDeletions(codec, Init(hasStore, store, now), actions, id)
  {
    ChancesRun(codec, store.Keys, Init(hasStore, store, now), actions, id);
  }

  /** Between two deliveries of one row lies a deletion of it that failed. */
  lemma RedeliveryNeedsFailedDeletion(codec: Codec, prior: set<MsgId>, s: State, between: seq<Action>, m: Msg, again: Msg)
    requires Inv(codec, prior, s) && Faithful(codec) && s.hasStore && s.phase == Sending(m, true)
    requires Run(codec, Apply(codec, s, SendOk), between)
    requires Exec(codec, Apply(codec, s, SendOk), between).phase == Sending(again, true) && again.id == m.id
    ensures FailedDeletions(codec, Apply(codec, s, SendOk), between, m.id) > 0
  {
    InvStep(codec, prior, s, SendOk);
    if FailedDeletions(codec, Apply(codec, s, SendOk), between, m.id) == 0 {
      SettledUnlessFailed(codec, prior, Apply(codec, s, SendOk), between, m.id);
    }
  }

  lemma {:induction false} SettledUnlessFailed(codec: Codec, prior: set<MsgId>, s: State, actions: seq<Action>, id: MsgId)
    requires Inv(codec, prior, s) && Faithful(codec) && Run(codec, s, actions)
    requires s.phase == Deleting(id) || Gone(s, id)
    requires FailedDeletions(codec, s, actions, id) == 0
    ensures var s' := Exec(codec, s, actions); s'.phase == Deleting(id) || Gone(s', id)
    decreases |actions|
  {
    if actions != [] {
      InvStep(codec, prior, s, actions[0]);
      if Gone(s, id) {
        GoneStays(codec, s, actions[0], id);
      } else if actions[0].DeleteDone? {
        DeletedIsGone(codec, prior, s, id);
      }
      SettledUnlessFailed(codec, prior, Apply(codec, s, actions[0]), actions[1..], id);
    }
  }

  /** The memory queue is bounded at every moment. */
  lemma QueueIsBounded(codec: Codec, hasStore: bool, store: map<MsgId, Record>, now: int, actions: seq<Action>)
    requires Faithful(codec) && KeyedById(store) && Run(codec, Init(hasStore, store, now), actions)
    ensures |Exec(codec, Init(hasStore, store, now), actions).outbox| <= OUTBOX_CAPACITY
  {
    RunKeepsInv(codec, store.Keys, Init(hasStore, store, now), actions);
  }

  /** Between two connections at most one memory message is lost. */
  lemma {:induction false} OneLossPerSession(codec: Codec, s: State, actions: seq<Action>)
    requires Run(codec, s, actions)
    requires forall i | 0 <= i < |actions| :: !actions[i].Connect?
    ensures Losses(Exec(codec, s, actions).left) <= Losses(s.left) + (if SessionLive(s) then 1 else 0)
    decreases |actions|
  {
    if actions != [] {
      LossEndsSession(codec, s, actions[0]);
      OneLossPerSession(codec, Apply(codec, s, actions[0]), actions[1..]);
    }
  }

  lemma LossEndsSession(codec: Codec, s: State, a: Action)
    requires Enabled(s, a) && !a.Connect?
    ensures var next := Apply(codec, s, a);
      Losses(next.left) + (if SessionLive(next) then 1 else 0) <= Losses(s.left) + (if SessionLive(s) then 1 else 0)
  {
    if a.SendOk? || a.SendFailed? {
      LossesSnoc(s.left, Departure(s.phase.msg.id, a.SendOk?));
    }
  }

  lemma LossesSnoc(left: seq<Departure>, d: Departure)
    ensures Losses(left + [d]) == Losses(left) + (if d.delivered then 0 else 1)
  {
    assert (left + [d])[..|left|] == left;
  }

  /** `at` shows where the elements of `part` stand in `whole`, in order. */
  ghost predicate Embeds(part: seq<MsgId>, whole: seq<MsgId>, at: seq<nat>) {
    && |at| == |part|
    && (forall i | 0 <= i < |at| :: at[i] < |whole| && whole[at[i]] == part[i])
    && (forall i, j | 0 <= i < j < |at| :: at[i] < at[j])
  }

  lemma {:induction false} ArrivalsEmbed(left: seq<Departure>) returns (at: seq<nat>)
    ensures Embeds(Arrivals(left), DepartedIds(left), at)
  {
    if left == [] {
      at := [];
    } else {
      var n := |left| - 1;
      at := ArrivalsEmbed(left[..n]);
      DepartedSnoc(left, n);
      at := EmbedsSnoc(Arrivals(left[..n]), DepartedIds(left[..n]), at, left[n].id, left[n].delivered);
    }
  }

  lemma DepartedSnoc(left: seq<Departure>, n: nat)
    requires |left| == n + 1
    ensures DepartedIds(left) == DepartedIds(left[..n]) + [left[n].id]
  {
  }

  lemma EmbedsSnoc(part: seq<MsgId>, whole: seq<MsgId>, at: seq<nat>, id: MsgId, kept: bool) returns (more: seq<nat>)
    requires Embeds(part, whole, at)
    ensures Embeds(part + (if kept then [id] else []), whole + [id], more)
  {
    more := if kept then at + [|whole|] else at;
    assert part + [] == part;
  }

  /** Memory messages are delivered in acceptance order, each at most once. */
  lemma MemoryMessagesKeepOrder(
      codec: Codec, hasStore: bool, store: map<MsgId, Record>, now: int, actions: seq<Action>)
    requires Faithful(codec) && KeyedById(store) && Run(codec, Init(hasStore, store, now), actions)
    ensures var s := Exec(codec, Init(hasStore, store, now), actions);
            Distinct(s.queued) && exists at :: Embeds(MemoryDeliveries(s.delivered), s.queued, at)
  {
    RunKeepsInv(codec, store.Keys, Init(hasStore, store, now), actions);
    var s := Exec(codec, Init(hasStore, store, now), actions);
    var at := ArrivalsEmbed(s.left);
    assert DepartedIds(s.left) <= s.queued;
    assert Embeds(MemoryDeliveries(s.delivered), s.queued, at);
  }

  /** A session that can read the store queues every accepted row for redelivery, with the
      accepted content, before it touches the memory queue. */
  lemma SessionsRedeliverTheStore(codec: Codec, prior: set<MsgId>, s: State, rows: seq<Record>, id: MsgId)
    requires Inv(codec, prior, s) && s.hasStore && Enabled(s, ListPending(true, rows))
    requires id in s.store && id !in prior
    ensures Msg(id, s.accepted[id]) in Apply(codec, s, ListPending(true, rows)).persisted
  {
    var j: nat :| j < |rows| && rows[j].id == id;
    assert Holds(codec, s.store, id, s.accepted[id]) && s.store[id] == rows[j];
    DecodedKeepsRows(codec, rows, j, s.accepted[id]);
  }

  // ---------- The client's own methods ----------

  datatype SendOutcome = Queued | Overflows | Rejected

  method DecodeRows(codec: Codec, rows: seq<Record>) returns (queue: seq<Msg>)
    ensures queue == Decoded(codec, rows)
  {
    queue := [];
    for i := 0 to |rows|
      invariant queue + Decoded(codec, rows[i..]) == Decoded(codec, rows)
    {
      var m := FromRecord(codec, rows[i].kind, rows[i].payload);
      if m.Some? {
        queue := queue + [Msg(rows[i].id, m.value)];
      }
    }
  }

  /** The live data of a client; `book` keeps the bookkeeping part of the state. */
  class Client {
    const codec: Codec
    const hasStore: bool
    var phase: Phase
    var outbox: seq<Msg>
    var persisted: seq<Msg>
    var pending: map<MsgId, Outgoing>
    var store: map<MsgId, Record>
    ghost var book: State
    ghost const prior: set<MsgId>

    ghost function View(): State
      reads this
    {
      book.(hasStore := hasStore, phase := phase, outbox := outbox, persisted := persisted,
            pending := pending, store := store)
    }

    ghost predicate Valid()
      reads this
    {
      Faithful(codec) && Inv(codec, prior, View())
    }

    constructor (codec: Codec, hasStore: bool, store: map<MsgId, Record>, now: int)
      requires Faithful(codec) && KeyedById(store)
      ensures Valid() && View() == Init(hasStore, store, now) && this.codec == codec
    {
      this.codec := codec;
      this.hasStore := hasStore;
      this.store := store;
      phase, outbox, persisted, pending := Down, [], [], map[];
      book := Init(hasStore, store, now);
      prior := store.Keys;
    }

    /** A client in the middle of its life: `s` is what the steps so far have left. */
    constructor During(codec: Codec, s: State, ghost prior: set<MsgId>)
      requires Faithful(codec) && Inv(codec, prior, s)
      ensures Valid() && View() == s && this.codec == codec && this.prior == prior
    {
      this.codec := codec;
      hasStore, phase, outbox, persisted, pending, store := s.hasStore, s.phase, s.outbox, s.persisted, s.pending, s.store;
      book := s;
      this.prior := prior;
    }

    /** `send_message` up to the store: into the bounded queue, or off to `persist_overflow`. */
    method SendMessage(id: MsgId, body: Outgoing) returns (r: SendOutcome)
      requires Valid() && Enabled(View(), Send(id, body))
      modifies this
      ensures Valid() && View() == Apply(codec, old(View()), Send(id, body))
      ensures old(|outbox|) < 1024 ==> r.Queued? && outbox == old(outbox) + [Msg(id, body)] && pending == old(pending)
      ensures old(|outbox|) == 1024 && hasStore ==> r.Overflows? && outbox == old(outbox) && pending == old(pending)[id := body]
      ensures old(|outbox|) == 1024 && !hasStore ==> r.Rejected? && outbox == old(outbox) && pending == old(pending)
    {
      ghost var s := View();
      if |outbox| < OUTBOX_CAPACITY {
        r := Queued;
        outbox := outbox + [Msg(id, body)];
      } else if hasStore {
        r := Overflows;
        pending := pending[id := body];
      } else {
        r := Rejected;
      }
      book := SendStep(s, id, body);
      InvStep(codec, prior, s, Send(id, body));
    }

    /** `load_persisted` after the purge: the rows that decode, or none when listing fails. */
    method LoadPersisted(ok: bool, rows: seq<Record>)
      requires Valid() && Enabled(View(), ListPending(ok, rows))
      modifies this
      ensures Valid() && View() == Apply(codec, old(View()), ListPending(ok, rows))
    {
      ghost var s := View();
      persisted := [];
      if hasStore && ok {
        persisted := DecodeRows(codec, rows);
      }
      phase := Open;
      book := Apply(codec, s, ListPending(ok, rows));
      InvStep(codec, prior, s, ListPending(ok, rows));
    }

    /** `next_outgoing` */
    method NextOutgoing() returns (m: Msg, stored: bool)
      requires Valid() && Enabled(View(), Pop)
      modifies this
      ensures Valid() && View() == Apply(codec, old(View()), Pop)
      ensures stored <==> old(persisted) != []
      ensures m == if stored then old(persisted)[0] else old(outbox)[0]
    {
      ghost var s := View();
      if persisted != [] {
        m, stored := persisted[0], true;
        persisted := persisted[1..];
      } else {
        m, stored := outbox[0], false;
        outbox := outbox[1..];
      }
      phase := Sending(m, stored);
      book := PopStep(s);
      InvStep(codec, prior, s, Pop);
    }
  }
}

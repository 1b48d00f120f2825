/** The broker as a step system. An event (a packet on a connection, a closed socket, a tick of a retry
    loop) is a list of actions, one per call that changes state or writes to a socket; pointers to
    message, session and connection objects are indices, so that all holders of one see the same object. */
module Delivery {
  import opened Base
  import opened Filters
  import opened Sessions
  import opened Detaching
  import I = IndexSpec
  import P = Packets
  import S = Sequencer
  import T = TopicTree

  /** constants.go:45. */
  datatype Status = Unacknowledged | PubackReceived | PubrecReceived | PubrelReceived | PubcompReceived

  /** acknowledge is only ever called with one of the other four. */
  type AckStatus = s: Status | !s.Unacknowledged? witness PubackReceived

  /** Which call made a message object: bookkeeping that the source does not have. A number is that of
      the call of the sequencer that gave the message its identifier. */
  datatype Origin = Live(call: nat) | Queued(call: nat) | Inbound | Loaded

  datatype ClientMessage = ClientMessage(client: Option<ConnRef>, topic: Bytes, payload: Bytes,
                                         qos: byte, retain: byte, status: Status, origin: Origin)

  /** What the session store keeps of a message: the exported fields. */
  datatype Stored = Stored(topic: Bytes, payload: Bytes, qos: byte, retain: byte, status: Status)

  type Disk = map<ClientId, map<PacketId, Stored>>

  datatype Conn = Conn(id: ClientId, connected: bool, session: Option<SessionRef>, will: Option<Message>)

  datatype Packet =
    | ConnAck(sessionPresent: bool)
    | Publish(id: PacketId, topic: Bytes, payload: Bytes, dup: byte, qos: byte, retain: byte)
    | PubAck(id: PacketId)
    | PubRec(id: PacketId)
    | PubRel(id: PacketId)
    | PubComp(id: PacketId)
    | SubAck(id: PacketId, codes: Bytes)
    | UnsubAck(id: PacketId)
    | PingResp

  /** What is written to a connection, with the message object a PUBLISH came from; and a note for
      every inbound PUBLISH that is handed on to Publish. */
  datatype LogEntry =
    | Sent(conn: ConnRef, packet: Packet, msg: Option<MsgRef>)
    | Forwarded(conn: ConnRef, id: PacketId, qos: byte, topic: Bytes, payload: Bytes)

  /** A goroutine running Retry: before its first check, before its second, or returned. */
  datatype Phase = Early | Late | Stopped
  datatype RetryLoop = RetryLoop(id: PacketId, msg: MsgRef, phase: Phase)

  datatype State = State(
    topics: T.Tree,
    store: map<PacketId, MsgRef>,                  // GOTT.MessageStore
    msgs: seq<ClientMessage>,
    sessions: seq<SessionState>,
    conns: seq<Conn>,
    calls: nat,                                    // of packetSeq.next
    disk: Disk,                                    // GOTT.SessionStore
    retries: seq<RetryLoop>,
    log: seq<LogEntry>,
    clock: int)

  /** A broker that has just been started opens the session store an earlier one left (session_store.go:11). */
  function Initial(disk: Disk): State {
    State(T.EMPTY_TREE, map[], [], [], [], 0, disk, [], [], 0)
  }

  // ---------- actions ----------

  datatype Action =
    | Send(conn: ConnRef, packet: Packet)
    | Forward(conn: ConnRef, id: PacketId, qos: byte, topic: Bytes, payload: Bytes)
    | Deliver(sub: Subscription, topic: Bytes, payload: Bytes, qos: byte)
    | DeliverRetained(sub: Subscription, msg: Message)
    | Index(op: I.Op)
    | AckStored(id: PacketId, status: AckStatus, delete: bool)
    | AckSession(num: nat, id: PacketId, status: AckStatus, delete: bool, save: bool)
    | Hold(num: nat, id: PacketId, topic: Bytes, payload: Bytes)
    | Open
    | Attach(conn: ConnRef, client: ClientId, clean: bool, will: Option<Message>)
    | Erase(client: ClientId)
    | Load(num: nat)
    | Save(num: nat)
    | Replay(conn: ConnRef, num: nat, id: PacketId)
    | Close(conn: ConnRef)
    | Retry(loop: nat)

  predicate Connected(st: State, k: Option<ConnRef>) {
    k.Some? && k.value < |st.conns| && st.conns[k.value].connected
  }

  /** The connection through which a session can be reached at the moment. */
  function SessionClient(st: State, num: nat): Option<ConnRef> {
    if num < |st.sessions| then st.sessions[num].client else None
  }

  predicate Reached(st: State, s: SessionRef) {
    Connected(st, SessionClient(st, s.num))
  }

  function StoredOf(m: ClientMessage): Stored {
    Stored(m.topic, m.payload, m.qos, m.retain, m.status)
  }

  /** session.put: the session's messages as they are now. */
  function Snapshot(msgs: seq<ClientMessage>, messages: map<PacketId, MsgRef>): map<PacketId, Stored> {
    map id | id in messages && messages[id] < |msgs| :: StoredOf(msgs[messages[id]])
  }

  function Saved(st: State, num: nat): State {
    if num < |st.sessions| then
      st.(disk := st.disk[st.sessions[num].ref.id := Snapshot(st.msgs, st.sessions[num].messages)])
    else st
  }

  function Logged(st: State, e: LogEntry): State {
    st.(log := st.log + [e])
  }

  /** broker.go:353-357: stored under its identifier, with a retry loop of its own. */
  function Tracked(st: State, id: PacketId, m: ClientMessage): State {
    st.(msgs := st.msgs + [m], store := st.store[id := |st.msgs|],
        retries := st.retries + [RetryLoop(id, |st.msgs|, Early)])
  }

  /** The body of the loop of Publish (broker.go:335-365). */
  function DoDeliver(st: State, sub: Subscription, topic: Bytes, payload: Bytes, pubQos: byte): State {
    var qos: byte := Min(sub.qos, pubQos);
    var id := if qos > 0 then S.IdOfCall(st.calls) else 0;
    var st1 := if qos > 0 then st.(calls := st.calls + 1) else st;
    var client := SessionClient(st, sub.session.num);
    if Reached(st, sub.session) then
      var out := Publish(id, topic, payload, 0, qos, 0);
      if qos > 0 then
        Logged(Tracked(st1, id, ClientMessage(client, topic, payload, qos, 0, Unacknowledged, Live(st.calls))),
               Sent(client.value, out, Some(|st.msgs|)))
      else Logged(st1, Sent(client.value, out, None))
    else if !sub.session.clean && qos > 0 && sub.session.num < |st.sessions| then
      var m := ClientMessage(client, topic, payload, qos, 0, Unacknowledged, Queued(st.calls));
      var s := st.sessions[sub.session.num];
      Saved(st1.(msgs := st.msgs + [m],
                 sessions := st.sessions[sub.session.num := s.(messages := s.messages[id := |st.msgs|])]),
            sub.session.num)
    else st1
  }

  /** PublishRetained (broker.go:372). */
  function DoDeliverRetained(st: State, sub: Subscription, msg: Message): State {
    if !Reached(st, sub.session) then st
    else
      var qos: byte := Min(sub.qos, msg.qos);
      var client := SessionClient(st, sub.session.num);
      if qos > 0 then
        var id := S.IdOfCall(st.calls);
        var m := ClientMessage(client, msg.topic, msg.payload, qos, 1, Unacknowledged, Live(st.calls));
        Logged(Tracked(st, id, m).(calls := st.calls + 1),
               Sent(client.value, Publish(id, msg.topic, msg.payload, 0, qos, 1), Some(|st.msgs|)))
      else Logged(st, Sent(client.value, Publish(0, msg.topic, msg.payload, 0, 0, 1), None))
  }

  /** The tree, and the sessions whose connection a departing client's entries lose. */
  function DoIndex(st: State, op: I.Op): State {
    var st1 := st.(topics := I.Apply(st.topics, op));
    if op.UnsubscribeAll? then
      st1.(sessions := DetachKids(st.sessions, st.topics.kids, op.s.id, op.graceful || op.s.clean, op.s.clean))
    else st1
  }

  function WithStatus(msgs: seq<ClientMessage>, m: MsgRef, status: Status): (r: seq<ClientMessage>)
    ensures |r| == |msgs|
    ensures forall i :: 0 <= i < |msgs| ==> r[i] == msgs[i].(status := if i == m then status else msgs[i].status)
  {
    if m < |msgs| then msgs[m := msgs[m].(status := status)] else msgs
  }

  /** messageStore.acknowledge (message_store.go:42) on the broker's store. */
  function DoAckStored(st: State, id: PacketId, status: AckStatus, delete: bool): State {
    if id !in st.store then st
    else
      st.(msgs := WithStatus(st.msgs, st.store[id], status),
          store := if delete then st.store - {id} else st.store)
  }

  /** The same on a session's store. */
  function AckedSession(st: State, num: nat, id: PacketId, status: AckStatus, delete: bool): State {
    if num >= |st.sessions| || id !in st.sessions[num].messages then st
    else
      var s := st.sessions[num];
      st.(msgs := WithStatus(st.msgs, s.messages[id], status),
          sessions := st.sessions[num := s.(messages := if delete then s.messages - {id} else s.messages)])
  }

  /** session.acknowledge (session.go:42) also saves, unless the session is clean. */
  function DoAckSession(st: State, num: nat, id: PacketId, status: AckStatus, delete: bool, save: bool): State {
    var st1 := AckedSession(st, num, id, status, delete);
    if save && num < |st.sessions| && !st.sessions[num].ref.clean then Saved(st1, num) else st1
  }

  /** client.go:437: an inbound message of QoS 2 waits for its PUBREL in the session's store. */
  function DoHold(st: State, num: nat, id: PacketId, topic: Bytes, payload: Bytes): State {
    if num >= |st.sessions| then st
    else
      var s := st.sessions[num];
      st.(msgs := st.msgs + [ClientMessage(None, topic, payload, 2, 0, PubrecReceived, Inbound)],
          sessions := st.sessions[num := s.(messages := s.messages[id := |st.msgs|])])
  }

  /** newSession (session.go:10). */
  function DoAttach(st: State, k: ConnRef, id: ClientId, clean: bool, will: Option<Message>): State {
    if k >= |st.conns| then st
    else
      var ref := SessionRef(id, |st.sessions|, clean);
      st.(sessions := st.sessions + [SessionState(ref, Some(k), map[])],
          conns := st.conns[k := st.conns[k].(id := id, session := Some(ref), will := if will.Some? then will else st.conns[k].will)])
  }

  /** The identifiers in `ids` from `lo` on, ascending: the order of RangeSorted (message_store.go:75). */
  function Ascending(ids: set<PacketId>, lo: nat): (r: seq<PacketId>)
    requires lo <= 65536
    ensures forall id :: id in r ==> id in ids
    decreases 65536 - lo
  {
    if lo == 65536 then [] else (if lo in ids then [lo as PacketId] else []) + Ascending(ids, lo + 1)
  }

  function FromStored(m: Stored): ClientMessage {
    ClientMessage(None, m.topic, m.payload, m.qos, m.retain, m.status, Loaded)
  }

  function LoadedMsgs(stored: map<PacketId, Stored>, keys: seq<PacketId>): seq<ClientMessage>
    requires forall id :: id in keys ==> id in stored
  {
    seq(|keys|, i requires 0 <= i < |keys| => assert keys[i] in keys; FromStored(stored[keys[i]]))
  }

  function LoadedMap(base: nat, keys: seq<PacketId>): map<PacketId, MsgRef> {
    if keys == [] then map[] else LoadedMap(base, keys[..|keys| - 1])[keys[|keys| - 1] := base + |keys| - 1]
  }

  /** session.load (session.go:19): new message objects for what the session store holds. */
  function DoLoad(st: State, num: nat): State {
    if num >= |st.sessions| || st.sessions[num].ref.id !in st.disk then st
    else
      var stored := st.disk[st.sessions[num].ref.id];
      var keys := Ascending(stored.Keys, 0);
      st.(msgs := st.msgs + LoadedMsgs(stored, keys),
          sessions := st.sessions[num := st.sessions[num].(messages := LoadedMap(|st.msgs|, keys))])
  }

  /** PublishToClient (broker.go:398), called by replay. */
  function DoReplay(st: State, k: ConnRef, num: nat, id: PacketId): State {
    if !Connected(st, Some(k)) || num >= |st.sessions| || id !in st.sessions[num].messages then st
    else
      var m := st.sessions[num].messages[id];
      if m >= |st.msgs| || st.msgs[m].qos == 0 then st
      else
        var cm := st.msgs[m].(client := Some(k), retain := 0);
        var st1 := st.(msgs := st.msgs[m := cm], store := st.store[id := m],
                       retries := st.retries + [RetryLoop(id, m, Early)]);
        if cm.status.Unacknowledged? then
          Logged(st1, Sent(k, Publish(id, cm.topic, cm.payload, 0, cm.qos, 0), Some(m)))
        else st1
  }

  /** What Retry sends at its second check (broker.go:432-445). */
  function RetryPacket(id: PacketId, m: ClientMessage): Option<Packet> {
    match m.status
    case Unacknowledged => Some(Publish(id, m.topic, m.payload, if m.qos == 0 then 0 else 1, m.qos, m.retain))
    case PubrecReceived => Some(PubRel(id))
    case PubrelReceived => Some(PubComp(id))
    case _ => None
  }

  /** One check of a retry loop (broker.go:418-449). */
  function DoRetry(st: State, n: nat): State {
    if n >= |st.retries| || st.retries[n].msg >= |st.msgs| then st
    else
      var loop := st.retries[n];
      var m := st.msgs[loop.msg];
      if loop.phase.Stopped? then st
      else if !Connected(st, m.client) || m.status.PubackReceived? || m.status.PubcompReceived? then
        st.(retries := st.retries[n := loop.(phase := Stopped)])
      else if loop.phase.Early? then st.(retries := st.retries[n := loop.(phase := Late)])
      else
        var st1 := st.(retries := st.retries[n := loop.(phase := Early)]);
        var out := RetryPacket(loop.id, m);
        if out.Some? then
          Logged(st1, Sent(m.client.value, out.value, if m.status.Unacknowledged? then Some(loop.msg) else None))
        else st1
  }

  function Do(st: State, a: Action): State {
    match a
    case Send(k, packet) => Logged(st, Sent(k, packet, None))
    case Forward(k, id, qos, topic, payload) => Logged(st, Forwarded(k, id, qos, topic, payload))
    case Deliver(sub, topic, payload, qos) => DoDeliver(st, sub, topic, payload, qos)
    case DeliverRetained(sub, msg) => DoDeliverRetained(st, sub, msg)
    case Index(op) => DoIndex(st, op)
    case AckStored(id, status, delete) => DoAckStored(st, id, status, delete)
    case AckSession(num, id, status, delete, save) => DoAckSession(st, num, id, status, delete, save)
    case Hold(num, id, topic, payload) => DoHold(st, num, id, topic, payload)
    case Open => st.(conns := st.conns + [Conn("", true, None, None)])
    case Attach(k, id, clean, will) => DoAttach(st, k, id, clean, will)
    case Erase(id) => st.(disk := st.disk - {id})
    case Load(num) => DoLoad(st, num)
    case Save(num) => Saved(st, num)
    case Replay(k, num, id) => DoReplay(st, k, num, id)
    case Close(k) => if k < |st.conns| then st.(conns := st.conns[k := st.conns[k].(connected := false)]) else st
    case Retry(n) => DoRetry(st, n)
  }

  function Exec(st: State, actions: seq<Action>): State {
    if actions == [] then st else Do(Exec(st, actions[..|actions| - 1]), actions[|actions| - 1])
  }

  // ---------- events and their actions ----------

  datatype Event =
    | Accept
    | OnConnect(conn: ConnRef, client: ClientId, clean: bool, will: Option<Message>)
    | OnPublish(conn: ConnRef, topic: Bytes, payload: Bytes, flags: P.PublishFlags, id: PacketId)
    | OnPubAck(conn: ConnRef, id: PacketId)
    | OnPubRec(conn: ConnRef, id: PacketId)
    | OnPubRel(conn: ConnRef, id: PacketId)
    | OnPubComp(conn: ConnRef, id: PacketId)
    | OnSubscribe(conn: ConnRef, id: PacketId, filters: seq<P.FilterQos>)
    | OnUnsubscribe(conn: ConnRef, id: PacketId, names: seq<Bytes>)
    | OnPingReq(conn: ConnRef)
    | OnDisconnect(conn: ConnRef)
    | OnError(conn: ConnRef)
    | OnTick(loop: nat)

  /** The entries of the matched nodes, in the order Publish meets them. */
  function Recipients(matches: seq<T.Tree>): seq<Subscription> {
    if matches == [] then [] else Recipients(matches[..|matches| - 1]) + matches[|matches| - 1].subs
  }

  function Deliveries(subs: seq<Subscription>, topic: Bytes, payload: Bytes, qos: byte): seq<Action> {
    seq(|subs|, i requires 0 <= i < |subs| => Deliver(subs[i], topic, payload, qos))
  }

  /** broker.go:322-331: an empty payload clears. */
  function RetainOp(topic: Bytes, payload: Bytes, qos: byte, clock: int): I.Op {
    I.Retain(if payload == [] then None else Some(Message(topic, payload, qos, false, clock)), topic)
  }

  /** Publish (broker.go:312): the matches are taken before the message is retained. */
  function PlanPublish(topics: T.Tree, topic: Bytes, payload: Bytes, qos: byte, retain: bool, clock: int): seq<Action> {
    if !ValidTopicName(topic) then []
    else
      (if retain then [Index(RetainOp(topic, payload, qos, clock))] else [])
      + Deliveries(Recipients(T.Match(topics, Split(topic))), topic, payload, qos)
  }

  /** sort.SliceStable by timestamp (broker.go:231). */
  function InsertByTime(sorted: seq<T.Tree>, t: T.Tree): seq<T.Tree> {
    if sorted == [] then [t]
    else
      var n := |sorted| - 1;
      if TimeOf(t) < TimeOf(sorted[n]) then InsertByTime(sorted[..n], t) + [sorted[n]] else sorted + [t]
  }

  function TimeOf(t: T.Tree): (time: int)
    ensures t.retained.Some? ==> time == t.retained.value.timestamp
  {
    if t.retained.Some? then t.retained.value.timestamp else 0
  }

  function SortByTime(ts: seq<T.Tree>): seq<T.Tree> {
    if ts == [] then [] else InsertByTime(SortByTime(ts[..|ts| - 1]), ts[|ts| - 1])
  }

  function RetainedDeliveries(found: seq<T.Tree>, sub: Subscription): seq<Action> {
    if found == [] then []
    else
      var n := |found| - 1;
      RetainedDeliveries(found[..n], sub)
      + if found[n].retained.Some? then [DeliverRetained(sub, found[n].retained.value)] else []
  }

  /** Subscribe (broker.go:205). */
  function PlanSubscribe(topics: T.Tree, s: SessionRef, f: P.FilterQos): seq<Action> {
    if !ValidFilterName(f.filter) then []
    else
      var op := I.Subscribe(s, f.filter, f.qos);
      [Index(op)]
      + RetainedDeliveries(SortByTime(T.Reverse(I.Apply(topics, op), Split(f.filter))), Subscription(s, f.qos))
  }

  function TopicsAfter(topics: T.Tree, s: SessionRef, filters: seq<P.FilterQos>): T.Tree {
    if filters == [] then topics
    else
      var n := |filters| - 1;
      I.Apply(TopicsAfter(topics, s, filters[..n]), I.Subscribe(s, filters[n].filter, filters[n].qos))
  }

  /** A SUBSCRIBE packet is handled filter by filter (client.go:591-601). */
  function PlanFilters(topics: T.Tree, s: SessionRef, filters: seq<P.FilterQos>): seq<Action> {
    if filters == [] then []
    else
      var n := |filters| - 1;
      PlanFilters(topics, s, filters[..n]) + PlanSubscribe(TopicsAfter(topics, s, filters[..n]), s, filters[n])
  }

  /** disconnect (client.go:668); a DISCONNECT packet has dropped the will and is graceful. */
  function PlanLeave(st: State, k: ConnRef, graceful: bool): seq<Action>
    requires k < |st.conns|
  {
    var c := st.conns[k];
    if c.session.None? then [Close(k)]
    else
      var op := I.UnsubscribeAll(c.session.value, graceful);
      [Close(k), Index(op)]
      + if graceful || c.will.None? then []
        else
          var w := c.will.value;
          PlanPublish(I.Apply(st.topics, op), w.topic, w.payload, w.qos, w.retain, st.clock)
  }

  /** CONNECT (client.go:337-367): the session, the session store, CONNACK, replay. */
  function PlanConnect(st: State, k: ConnRef, id: ClientId, clean: bool, will: Option<Message>): seq<Action> {
    var num := |st.sessions|;
    var present := !clean && id in st.disk;
    var keys := if present then Ascending(st.disk[id].Keys, 0) else [];
    [Attach(k, id, clean, will),
     if clean then Erase(id) else if present then Load(num) else Save(num),
     Send(k, ConnAck(present))]
    + seq(|keys|, i requires 0 <= i < |keys| => Replay(k, num, keys[i]))
  }

  /** An inbound PUBLISH (client.go:426-452). */
  function PlanInbound(st: State, k: ConnRef, s: SessionRef, topic: Bytes, payload: Bytes, flags: P.PublishFlags, id: PacketId): seq<Action> {
    if flags.qos == 2 && flags.dup == 1 && s.num < |st.sessions| && id in st.sessions[s.num].messages then
      [Send(k, PubRec(id))]
    else
      (if flags.qos == 1 then [Send(k, PubAck(id))]
       else if flags.qos == 2 then [Hold(s.num, id, topic, payload), Send(k, PubRec(id))]
       else [])
      + [Forward(k, id, flags.qos, topic, payload)]
      + PlanPublish(st.topics, topic, payload, flags.qos, flags.retain, st.clock)
  }

  function PlanPacket(st: State, s: SessionRef, e: Event): seq<Action>
    requires !e.Accept? && !e.OnTick? && e.conn < |st.conns|
  {
    match e
    case OnConnect(k, id, clean, will) => if id == "" then PlanLeave(st, k, false) else PlanConnect(st, k, id, clean, will)
    case OnPublish(k, topic, payload, flags, id) =>
      if ValidTopicName(topic) then PlanInbound(st, k, s, topic, payload, flags, id) else PlanLeave(st, k, false)
    case OnPubAck(k, id) => [AckStored(id, PubackReceived, true), AckSession(s.num, id, PubackReceived, true, true)]
    case OnPubRec(k, id) =>
      [AckStored(id, PubrecReceived, false), AckSession(s.num, id, PubrecReceived, false, true), Send(k, PubRel(id))]
    case OnPubRel(k, id) => [AckSession(s.num, id, PubrelReceived, true, false), Send(k, PubComp(id))]
    case OnPubComp(k, id) => [AckStored(id, PubcompReceived, true), AckSession(s.num, id, PubcompReceived, true, true)]
    case OnSubscribe(k, id, filters) =>
      PlanFilters(st.topics, s, filters)
      + [Send(k, SubAck(id, seq(|filters|, i requires 0 <= i < |filters| => P.SubackCode(filters[i]))))]
    case OnUnsubscribe(k, id, filters) =>
      seq(|filters|, i requires 0 <= i < |filters| => Index(I.Unsubscribe(s, filters[i]))) + [Send(k, UnsubAck(id))]
    case OnPingReq(k) => [Send(k, PingResp)]
    case OnDisconnect(k) => PlanLeave(st, k, true)
    case OnError(k) => PlanLeave(st, k, false)
  }

  /** The actions of one event. Nothing is read from a closed connection, and a connection without a
      client id is closed by anything but CONNECT (client.go:166-172). */
  function Plan(st: State, e: Event): seq<Action> {
    if e.Accept? then [Open]
    else if e.OnTick? then [Retry(e.loop)]
    else if !Connected(st, Some(e.conn)) then []
    else
      match st.conns[e.conn].session
      case Some(s) => PlanPacket(st, s, e)
      case None =>
        if e.OnConnect? && e.client != "" then PlanConnect(st, e.conn, e.client, e.clean, e.will) else [Close(e.conn)]
  }

  function Step(st: State, e: Event): State {
    Exec(st, Plan(st, e)).(clock := st.clock + 1)
  }

  function Run(st: State, events: seq<Event>): State {
    if events == [] then st else Step(Run(st, events[..|events| - 1]), events[|events| - 1])
  }
}

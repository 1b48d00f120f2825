/** The broker object of broker.go, with the packet handlers of client.go and session.go: fields changed
    in place, loops over nodes, entries and keys. Each method is proved to do what Delivery says. */
module Broker {
  import opened Base
  import opened Filters
  import opened Sessions
  import opened Detaching
  import opened Delivery
  import opened MessageStores
  import opened TopicLevels
  import E = Encoding
  import F = FanOut
  import H = Handshake
  import I = IndexSpec
  import P = Packets
  import R = Replay
  import S = Sequencer
  import T = TopicTree
  import TS = TopicStorage

  /** The bytes of a packet (packets.go). */
  function Wire(p: Packet): Bytes {
    match p
    case ConnAck(present) => [2 * 16, 2, if present then 1 else 0, 0]
    case Publish(id, topic, payload, dup, qos, retain) => P.PublishPacket(id, topic, payload, dup, qos, retain)
    case PubAck(id) => [4 * 16, 2] + P.Uint16Bytes(id)
    case PubRec(id) => [5 * 16, 2] + P.Uint16Bytes(id)
    case PubRel(id) => [6 * 16 + 2, 2] + P.Uint16Bytes(id)
    case PubComp(id) => [7 * 16, 2] + P.Uint16Bytes(id)
    case SubAck(id, codes) => [9 * 16] + E.Encoded(2 + |codes|) + P.Uint16Bytes(id) + codes
    case UnsubAck(id) => [11 * 16, 2] + P.Uint16Bytes(id)
    case PingResp => [13 * 16, 0]
  }

  /** The packets of the broker, byte by byte, under identifier 0x0102 (sections 3.2 to 3.13 of MQTT 3.1.1). */
  lemma WireBytes(codes: Bytes)
    requires |codes| < 126
    ensures Wire(ConnAck(false)) == [0x20, 2, 0, 0] && Wire(ConnAck(true)) == [0x20, 2, 1, 0]
    ensures Wire(PubAck(0x0102)) == [0x40, 2, 1, 2] && Wire(PubRec(0x0102)) == [0x50, 2, 1, 2]
    ensures Wire(PubRel(0x0102)) == [0x62, 2, 1, 2] && Wire(PubComp(0x0102)) == [0x70, 2, 1, 2]
    ensures Wire(SubAck(0x0102, codes)) == [0x90, (2 + |codes|) as byte, 1, 2] + codes
    ensures Wire(UnsubAck(0x0102)) == [0xB0, 2, 1, 2] && Wire(PingResp) == [0xD0, 0]
  {
    assert E.Encoded(2 + |codes|) == [(2 + |codes|) as byte];
  }

  function BytesOf(log: seq<LogEntry>): seq<(ConnRef, Bytes)> {
    if log == [] then []
    else
      var n := |log| - 1;
      BytesOf(log[..n]) + if log[n].Sent? then [(log[n].conn, Wire(log[n].packet))] else []
  }

  lemma BytesOfNext(log: seq<LogEntry>, e: LogEntry)
    ensures BytesOf(log + [e]) == if e.Sent? then BytesOf(log) + [(e.conn, Wire(e.packet))] else BytesOf(log)
  {
    assert (log + [e])[..|log|] == log;
  }

  lemma ExecOne(st: State, done: seq<Action>, a: Action)
    ensures Exec(st, done + [a]) == Do(Exec(st, done), a)
  {
    assert (done + [a])[..|done|] == done;
  }

  lemma ExecNone(st: State)
    ensures Exec(st, []) == st
  {
  }

  class Gott {
    const topics: TS.Storage
    const sessions: SessionTable
    const messageStore: MessageStore
    const heap: MessageHeap
    const packetSeq: S.Sequence
    var conns: seq<Conn>
    var disk: Disk
    var retries: seq<RetryLoop>
    var clock: int
    var written: seq<(ConnRef, Bytes)>
    ghost var log: seq<LogEntry>

    ghost predicate Valid()
      reads this, topics, topics.levels, topics.lists, packetSeq
    {
      topics.Valid() && I.RootOk(topics.model) && packetSeq.Valid() && Sync()
    }

    /** What was written to the sockets is what the log says, byte for byte. */
    ghost predicate Sync()
      reads this`written, this`log
    {
      written == BytesOf(log)
    }

    ghost function View(): State
      reads this, topics, sessions, messageStore, heap, packetSeq
    {
      State(topics.model, messageStore.messages, heap.cells, sessions.entries, conns, packetSeq.calls, disk, retries, log, clock)
    }

    lemma WrittenIsLogged()
      requires Valid()
      ensures written == BytesOf(log)
    {
    }

    constructor (left: Disk)
      ensures Valid() && View() == Initial(left)
      ensures fresh(topics) && fresh(topics.levels) && fresh(topics.lists)
      ensures fresh(sessions) && fresh(messageStore) && fresh(heap) && fresh(packetSeq)
    {
      topics := new TS.Storage();
      sessions := new SessionTable();
      messageStore := new MessageStore();
      heap := new MessageHeap();
      packetSeq := new S.Sequence();
      conns, disk, retries, clock, written, log := [], left, [], 0, [], [];
    }

    // ---------- writing ----------

    /** client.emit (client.go:712). */
    method Emit(k: ConnRef, packet: Bytes, ghost p: Packet, ghost m: Option<MsgRef>)
      requires packet == Wire(p) && Sync()
      modifies this`written, this`log
      ensures log == old(log) + [Sent(k, p, m)] && Sync()
    {
      BytesOfNext(log, Sent(k, p, m));
      written := written + [(k, packet)];
      log := log + [Sent(k, p, m)];
    }

    /** Bookkeeping: an inbound PUBLISH is about to be handed to Publish. */
    ghost method NoteForward(k: ConnRef, id: PacketId, qos: byte, topic: Bytes, payload: Bytes)
      requires Sync()
      modifies this`log
      ensures log == old(log) + [Forwarded(k, id, qos, topic, payload)] && Sync()
    {
      BytesOfNext(log, Forwarded(k, id, qos, topic, payload));
      log := log + [Forwarded(k, id, qos, topic, payload)];
    }

    predicate IsConnected(k: Option<ConnRef>)
      reads this
    {
      k.Some? && k.value < |conns| && conns[k.value].connected
    }

    function ClientOf(s: SessionRef): Option<ConnRef>
      reads sessions
    {
      if s.num < |sessions.entries| then sessions.entries[s.num].client else None
    }

    // ---------- sessions (session.go) ----------

    /** session.put. */
    method Put(num: nat)
      requires num < |sessions.entries|
      modifies this`disk
      ensures View() == Saved(old(View()), num)
    {
      var s := sessions.entries[num];
      disk := disk[s.ref.id := Snapshot(heap.cells, s.messages)];
    }

    /** session.storeMessage (session.go:35). */
    method StoreMessage(session: SessionRef, id: PacketId, m: ClientMessage)
      requires session.num < |sessions.entries|
      modifies this`disk, sessions, heap
      ensures var s := old(sessions.entries)[session.num];
              var stored := old(View()).(msgs := old(heap.cells) + [m],
                sessions := old(sessions.entries)[session.num := s.(messages := s.messages[id := |old(heap.cells)|])]);
              View() == if session.clean then stored else Saved(stored, session.num)
    {
      var ref := heap.New(m);
      var s := sessions.entries[session.num];
      sessions.entries := sessions.entries[session.num := s.(messages := s.messages[id := ref])];
      if !session.clean {
        Put(session.num);
      }
    }

    /** session.acknowledge (session.go:42); with `save` off, the bare store of client.go:524. */
    method SessionAcknowledge(num: nat, id: PacketId, status: AckStatus, delete: bool, save: bool)
      modifies this`disk, sessions, heap
      ensures View() == DoAckSession(old(View()), num, id, status, delete, save)
    {
      if num >= |sessions.entries| {
        return;
      }
      var s := sessions.entries[num];
      if id in s.messages {
        heap.StoreStatus(s.messages[id], status);
        if delete {
          sessions.entries := sessions.entries[num := s.(messages := s.messages - {id})];
        }
      }
      assert View() == AckedSession(old(View()), num, id, status, delete);
      if save && !s.ref.clean {
        Put(num);
      }
    }

    method StoreAcknowledge(id: PacketId, status: AckStatus, delete: bool)
      modifies messageStore, heap
      ensures View() == DoAckStored(old(View()), id, status, delete)
    {
      messageStore.Acknowledge(id, status, delete, heap);
    }

    // ---------- Publish ----------

    /** broker.go:356-357: into the store, and a goroutine of its own. */
    method Track(id: PacketId, m: ClientMessage)
      modifies this`retries, messageStore, heap
      ensures View() == Tracked(old(View()), id, m)
    {
      var ref := heap.New(m);
      messageStore.Store(id, ref);
      retries := retries + [RetryLoop(id, ref, Early)];
    }

    /** broker.go:335-365, for one entry. */
    method DeliverCopy(sub: Subscription, topic: Bytes, payload: Bytes, pubQos: byte)
      requires Valid()
      modifies this`written, this`log, this`retries, this`disk, sessions, messageStore, heap, packetSeq
      ensures Valid()
      ensures View() == DoDeliver(old(View()), sub, topic, payload, pubQos)
    {
      hide Sync, P.PublishPacket, E.Encoded, I.RootOk, S.IdOfCall, S.CurrentBefore, Smaller, Saved, BytesOf;
      var qos: byte := Min(sub.qos, pubQos);
      var number := packetSeq.calls;
      var packet, id := P.MakePublishPacket(packetSeq, topic, payload, 0, qos, 0);
      var client := ClientOf(sub.session);
      if IsConnected(client) {
        ghost var ref := if qos != 0 then Some(|heap.cells|) else None;
        Emit(client.value, packet, Packet.Publish(id, topic, payload, 0, qos, 0), ref);
        if qos != 0 {
          Track(id, ClientMessage(client, topic, payload, qos, 0, Unacknowledged, Live(number)));
        }
      } else if !sub.session.clean {
        if qos != 0 && sub.session.num < |sessions.entries| {
          StoreMessage(sub.session, id, ClientMessage(client, topic, payload, qos, 0, Unacknowledged, Queued(number)));
        }
      }
    }

    /** match.Subscriptions.Range (broker.go:335). */
    method DeliverAll(list: SubscriptionList, topic: Bytes, payload: Bytes, qos: byte)
      requires Valid()
      modifies this`written, this`log, this`retries, this`disk, sessions, messageStore, heap, packetSeq
      ensures Valid()
      ensures View() == F.After(old(View()), list.subs, topic, payload, qos)
    {
      hide Sync, Wire, I.RootOk, S.CurrentBefore, DoDeliver;
      ghost var start := View();
      assert list.subs[..0] == [];
      for j := 0 to |list.subs|
        invariant Valid() && list.subs == old(list.subs)
        invariant View() == F.After(start, list.subs[..j], topic, payload, qos)
      {
        AfterOne(start, list.subs[..j], list.subs[j], topic, payload, qos);
        assert list.subs[..j] + [list.subs[j]] == list.subs[..j + 1];
        DeliverCopy(list.subs[j], topic, payload, qos);
      }
      assert list.subs[..|list.subs|] == list.subs;
    }

    /** broker.go:334. */
    method DeliverMatches(matches: seq<TopicLevel>, ghost trees: seq<T.Tree>, topic: Bytes, payload: Bytes, qos: byte)
      requires Valid()
      requires |matches| == |trees| && forall k :: 0 <= k < |matches| ==> matches[k].subscriptions.subs == trees[k].subs
      modifies this`written, this`log, this`retries, this`disk, sessions, messageStore, heap, packetSeq
      ensures Valid()
      ensures View() == F.After(old(View()), Recipients(trees), topic, payload, qos)
    {
      hide Sync, Wire, I.RootOk, S.CurrentBefore, F.After, Recipients;
      ghost var start := View();
      assert trees[..0] == [];
      NoRecipients(start, topic, payload, qos);
      for i := 0 to |matches|
        invariant Valid()
        invariant forall k :: 0 <= k < |matches| ==> matches[k].subscriptions.subs == trees[k].subs
        invariant View() == F.After(start, Recipients(trees[..i]), topic, payload, qos)
      {
        DeliverAll(matches[i].subscriptions, topic, payload, qos);
        MoreRecipients(trees, i);
        AfterMore(start, Recipients(trees[..i]), trees[i].subs, topic, payload, qos);
      }
      assert trees[..|matches|] == trees;
    }

    /** broker.go:312. */
    method Publish(topic: Bytes, payload: Bytes, qos: byte, retain: bool) returns (ok: bool)
      requires Valid()
      modifies this`written, this`log, this`retries, this`disk, sessions, messageStore, heap, packetSeq, topics, topics.levels
      ensures Valid() && ok == ValidTopicName(topic)
      ensures View() == Exec(old(View()), PlanPublish(old(topics.model), topic, payload, qos, retain, clock))
      ensures fresh(topics.levels - old(topics.levels)) && fresh(topics.lists - old(topics.lists))
    {
      hide Sync, Wire, I.RootOk, S.CurrentBefore, T.Match, Exec, F.After, Split, Recipients, T.WellFormed, I.Apply, PlanPublish, RetainOp;
      ghost var before := View();
      PublishPlan(before, topic, payload, qos, retain);
      ok := ValidTopicName(topic);
      if !ok {
        return;
      }
      RootIsWellFormed(topics.model);
      var matches := topics.Match(topic);
      ghost var trees := T.Match(topics.model, Split(topic));
      ListsOf(matches, trees, topics.levels);
      if retain {
        Retain(topic, payload, qos);
      }
      assert View() == F.AfterRetaining(before, topic, payload, qos, retain);
      DeliverMatches(matches, trees, topic, payload, qos);
    }

    /** broker.go:321-332: an empty payload clears. */
    method Retain(topic: Bytes, payload: Bytes, qos: byte)
      requires Valid() && ValidTopicName(topic)
      modifies topics, topics.levels
      ensures Valid()
      ensures View() == old(View()).(topics := I.Apply(old(topics.model), RetainOp(topic, payload, qos, clock)))
      ensures fresh(topics.levels - old(topics.levels)) && fresh(topics.lists - old(topics.lists))
    {
      RootIsWellFormed(topics.model);
      I.ApplyKeepsRootOk(topics.model, RetainOp(topic, payload, qos, clock));
      if |payload| != 0 {
        topics.Retain(Some(Message(topic, payload, qos, false, clock)), topic);
      } else {
        topics.Retain(None, topic);
      }
    }

    // ---------- Subscribe ----------

    /** broker.go:372. */
    method PublishRetained(msg: Message, sub: Subscription)
      requires Valid()
      modifies this`written, this`log, this`retries, messageStore, heap, packetSeq
      ensures Valid()
      ensures View() == DoDeliverRetained(old(View()), sub, msg)
    {
      hide Sync, P.PublishPacket, E.Encoded, I.RootOk, S.IdOfCall, S.CurrentBefore;
      var client := ClientOf(sub.session);
      if IsConnected(client) {
        var qosOut: byte := Min(sub.qos, msg.qos);
        var number := packetSeq.calls;
        var packet, id := P.MakePublishPacket(packetSeq, msg.topic, msg.payload, 0, qosOut, 1);
        ghost var ref := |heap.cells|;
        if qosOut != 0 {
          Track(id, ClientMessage(client, msg.topic, msg.payload, qosOut, 1, Unacknowledged, Live(number)));
          Emit(client.value, packet, Packet.Publish(id, msg.topic, msg.payload, 0, qosOut, 1), Some(ref));
        } else {
          Emit(client.value, packet, Packet.Publish(id, msg.topic, msg.payload, 0, qosOut, 1), None);
        }
      }
    }

    /** broker.go:231: the nodes by the time of their retained messages; equal times stay in order. */
    method SortNodes(nodes: seq<TopicLevel>) returns (sorted: seq<TopicLevel>)
      requires forall k :: 0 <= k < |nodes| ==> nodes[k].model.retained == nodes[k].retainedMessage
      ensures Models(sorted) == SortByTime(Models(nodes))
      ensures forall n :: n in sorted ==> n in nodes
    {
      hide TimeOf;
      sorted := [];
      SortNone();
      for i := 0 to |nodes|
        invariant Models(sorted) == SortByTime(Models(nodes[..i]))
        invariant forall n :: n in sorted ==> n in nodes
      {
        assert nodes[..i + 1][..i] == nodes[..i];
        SortNext(Models(nodes[..i + 1]));
        assert Models(nodes[..i + 1])[..i] == Models(nodes[..i]);
        sorted := InsertNode(sorted, nodes[i]);
      }
      assert nodes[..|nodes|] == nodes;
    }

    method InsertNode(sorted: seq<TopicLevel>, node: TopicLevel) returns (r: seq<TopicLevel>)
      requires node.model.retained == node.retainedMessage
      requires forall n :: n in sorted ==> n.model.retained == n.retainedMessage
      ensures Models(r) == InsertByTime(Models(sorted), node.model)
      ensures forall n :: n in r <==> n in sorted || n == node
      decreases |sorted|
    {
      if sorted == [] {
        return [node];
      }
      var n := |sorted| - 1;
      assert Models(sorted)[..n] == Models(sorted[..n]);
      assert sorted == sorted[..n] + [sorted[n]];
      if NodeTime(node) < NodeTime(sorted[n]) {
        var front := InsertNode(sorted[..n], node);
        r := front + [sorted[n]];
      } else {
        r := sorted + [node];
      }
    }

    function NodeTime(node: TopicLevel): int
      reads node
    {
      if node.retainedMessage.Some? then node.retainedMessage.value.timestamp else 0
    }

    /** broker.go:235-242. */
    method DeliverRetainedAll(nodes: seq<TopicLevel>, sub: Subscription)
      requires Valid() && forall k :: 0 <= k < |nodes| ==> nodes[k].model.retained == nodes[k].retainedMessage
      modifies this`written, this`log, this`retries, messageStore, heap, packetSeq
      ensures Valid()
      ensures View() == Exec(old(View()), RetainedDeliveries(Models(nodes), sub))
    {
      hide Sync, Wire, I.RootOk, S.CurrentBefore, DoDeliverRetained, Exec, RetainedDeliveries;
      ghost var start := View();
      ghost var trees := Models(nodes);
      ExecNone(start);
      NoRetainedDeliveries(sub);
      assert trees[..0] == [];
      for i := 0 to |nodes|
        invariant Valid() && Models(nodes) == trees
        invariant forall k :: 0 <= k < |nodes| ==> nodes[k].model.retained == nodes[k].retainedMessage
        invariant View() == Exec(start, RetainedDeliveries(trees[..i], sub))
      {
        MoreRetainedDeliveries(trees, i, sub);
        assert trees[i] == nodes[i].model;
        assert RetainedDeliveries(trees[..i], sub) + [] == RetainedDeliveries(trees[..i], sub);
        if nodes[i].retainedMessage.Some? {
          ExecOne(start, RetainedDeliveries(trees[..i], sub), DeliverRetained(sub, nodes[i].retainedMessage.value));
          PublishRetained(nodes[i].retainedMessage.value, sub);
        }
      }
      assert trees[..|nodes|] == trees;
    }

    /** broker.go:230-242. */
    method DeliverRetainedMatches(filter: Bytes, sub: Subscription)
      requires Valid() && ValidFilterName(filter)
      modifies this`written, this`log, this`retries, messageStore, heap, packetSeq
      ensures Valid()
      ensures View() == Exec(old(View()), RetainedDeliveries(SortByTime(T.Reverse(topics.model, Split(filter))), sub))
    {
      hide Sync, Wire, I.RootOk, S.CurrentBefore, Exec, RetainedDeliveries, T.WellFormed, T.Reverse, SortByTime, Split, ValidFilterName;
      RootIsWellFormed(topics.model);
      var found := topics.ReverseMatch(filter);
      ListsOf(found, T.Reverse(topics.model, Split(filter)), topics.levels);
      ModelsOf(found, T.Reverse(topics.model, Split(filter)), topics.levels);
      var sorted := SortNodes(found);
      assert forall k :: 0 <= k < |sorted| ==> sorted[k] in found;
      DeliverRetainedAll(sorted, sub);
    }

    /** broker.go:205. */
    method Subscribe(s: SessionRef, filter: Bytes, qos: byte) returns (ok: bool)
      requires Valid()
      modifies this`written, this`log, this`retries, messageStore, heap, packetSeq, topics, topics.levels, topics.lists
      ensures Valid() && ok == ValidFilterName(filter)
      ensures View() == Exec(old(View()), PlanSubscribe(old(topics.model), s, P.FilterQos(filter, qos)))
      ensures fresh(topics.levels - old(topics.levels)) && fresh(topics.lists - old(topics.lists))
    {
      hide Sync, Wire, I.RootOk, S.CurrentBefore, Exec, PlanSubscribe, RetainedDeliveries, T.WellFormed, T.Reverse, I.Apply, SortByTime, Split, ValidFilterName;
      ghost var before := View();
      ghost var op := I.Subscribe(s, filter, qos);
      SubscribePlan(before, s, P.FilterQos(filter, qos));
      RootIsWellFormed(topics.model);
      I.ApplyKeepsRootOk(topics.model, op);
      ok := topics.Subscribe(s, filter, qos);
      if !ok {
        InvalidSubscribes(before.topics, op);
        return;
      }
      DeliverRetainedMatches(filter, Subscription(s, qos));
    }

    /** client.go:591-601. */
    method SubscribeAll(s: SessionRef, filters: seq<P.FilterQos>)
      requires Valid()
      modifies this`written, this`log, this`retries, messageStore, heap, packetSeq, topics, topics.levels, topics.lists
      ensures Valid()
      ensures View() == Exec(old(View()), PlanFilters(old(topics.model), s, filters))
      ensures fresh(topics.levels - old(topics.levels)) && fresh(topics.lists - old(topics.lists))
    {
      hide Sync, Wire, I.RootOk, S.CurrentBefore, Exec, PlanFilters, PlanSubscribe, TopicsAfter;
      ghost var start := View();
      ExecNone(start);
      NoFilters(start.topics, s);
      assert filters[..0] == [];
      for i := 0 to |filters|
        invariant Valid()
        invariant View() == Exec(start, PlanFilters(start.topics, s, filters[..i]))
        invariant topics.model == TopicsAfter(start.topics, s, filters[..i])
        invariant fresh(topics.levels - old(topics.levels)) && fresh(topics.lists - old(topics.lists))
      {
        MoreFilters(start, s, filters, i);
        ghost var mid := View();
        var ok := Subscribe(s, filters[i].filter, filters[i].qos);
        TopicsOfSubscribe(mid, s, filters[i]);
      }
      assert filters[..|filters|] == filters;
    }

    /** broker.go:249, one filter of client.go:637-647. */
    method Unsubscribe(s: SessionRef, filter: Bytes) returns (success: bool)
      requires Valid()
      modifies sessions, topics`model, topics.levels`model, topics.lists
      ensures Valid()
      ensures View() == DoIndex(old(View()), I.Unsubscribe(s, filter))
      ensures success <==> ValidFilterName(filter) && T.Holds(T.SubsAt(old(topics.model), Split(filter)), s.id)
    {
      I.ApplyKeepsRootOk(topics.model, I.Unsubscribe(s, filter));
      hide Sync, Wire, I.RootOk, S.CurrentBefore, I.Apply, ValidFilterName, T.SubsAt, T.Holds;
      success := topics.Unsubscribe(s, filter, sessions);
    }

    method UnsubscribeEach(s: SessionRef, names: seq<Bytes>)
      requires Valid()
      modifies sessions, topics`model, topics.levels`model, topics.lists
      ensures Valid()
      ensures View() == Exec(old(View()), Removals(s, names))
    {
      hide Sync, Wire, I.RootOk, S.CurrentBefore, Exec, DoIndex;
      ghost var start := View();
      ghost var plan := Removals(s, names);
      ExecNone(start);
      assert plan[..0] == [];
      for n := 0 to |names|
        invariant Valid()
        invariant View() == Exec(start, plan[..n])
      {
        ExecOne(start, plan[..n], plan[n]);
        assert plan[..n] + [plan[n]] == plan[..n + 1];
        var ok := Unsubscribe(s, names[n]);
      }
      assert plan[..|names|] == plan;
    }

    /** broker.go:274. */
    method UnsubscribeAll(s: SessionRef, graceful: bool)
      requires Valid()
      modifies sessions, topics`model, topics.levels`model, topics.lists
      ensures Valid()
      ensures View() == DoIndex(old(View()), I.UnsubscribeAll(s, graceful))
    {
      ghost var before := View();
      I.ApplyKeepsRootOk(topics.model, I.UnsubscribeAll(s, graceful));
      IndexEffect(before, s, graceful);
      hide DoIndex, Sync, Wire, TS.Storage.Valid, I.RootOk, S.CurrentBefore, S.Sequence.Valid, I.Apply, DetachKids;
      topics.UnsubscribeAll(s, graceful, sessions);
    }

    // ---------- connections (client.go) ----------

    method CloseConnection(k: ConnRef)
      modifies this`conns
      ensures View() == Do(old(View()), Close(k))
    {
      if k < |conns| {
        conns := conns[k := conns[k].(connected := false)];
      }
    }

    /** client.go:674-681. */
    method Depart(k: ConnRef, s: SessionRef, graceful: bool)
      requires Valid() && k < |conns|
      modifies this`conns, sessions, topics`model, topics.levels`model, topics.lists
      ensures Valid()
      ensures View() == Exec(old(View()), [Close(k), Index(I.UnsubscribeAll(s, graceful))])
      ensures topics.model == I.Apply(old(topics.model), I.UnsubscribeAll(s, graceful))
    {
      hide Sync, Wire, I.RootOk, S.CurrentBefore, Exec, I.Apply, DetachKids;
      ghost var before := View();
      CloseConnection(k);
      UnsubscribeAll(s, graceful);
      ExecTwo(before, Close(k), Index(I.UnsubscribeAll(s, graceful)));
    }

    /** disconnect (client.go:668). */
    method Leave(k: ConnRef, graceful: bool)
      requires Valid() && k < |conns|
      modifies this`conns, this`written, this`log, this`retries, this`disk, sessions, messageStore, heap, packetSeq, topics, topics.levels, topics.lists
      ensures Valid()
      ensures View() == Exec(old(View()), PlanLeave(old(View()), k, graceful))
      ensures fresh(topics.levels - old(topics.levels)) && fresh(topics.lists - old(topics.lists))
    {
      hide Sync, Wire, I.RootOk, S.CurrentBefore, Exec, Do, DoIndex, PlanLeave, PlanPublish, I.Apply;
      ghost var before := View();
      var c := conns[k];
      LeavePlan(before, k, graceful);
      if c.session.None? {
        CloseConnection(k);
        ExecSingle(before, Close(k));
        return;
      }
      var s := c.session.value;
      Depart(k, s, graceful);
      if !graceful && c.will.Some? {
        var w := c.will.value;
        ghost var op := I.UnsubscribeAll(s, graceful);
        var ok := Publish(w.topic, w.payload, w.qos, w.retain);
        ExecJoin(before, [Close(k), Index(op)], PlanPublish(I.Apply(before.topics, op), w.topic, w.payload, w.qos, w.retain, before.clock));
      }
    }

    /** handleConnection (broker.go:189). */
    method Open()
      modifies this`conns
      ensures View() == Do(old(View()), Action.Open)
    {
      conns := conns + [Conn("", true, None, None)];
    }

    /** newSession (session.go:10), for the client id and the will of a CONNECT. */
    method Attach(k: ConnRef, id: ClientId, clean: bool, will: Option<Message>) returns (num: nat)
      requires k < |conns|
      modifies this`conns, sessions
      ensures View() == DoAttach(old(View()), k, id, clean, will)
      ensures num == old(|sessions.entries|) < |sessions.entries|
    {
      num := |sessions.entries|;
      var ref := SessionRef(id, num, clean);
      sessions.entries := sessions.entries + [SessionState(ref, Some(k), map[])];
      var c := conns[k];
      conns := conns[k := c.(id := id, session := Some(ref), will := if will.Some? then will else c.will)];
    }

    /** session.load (session.go:19). */
    method Load(num: nat)
      modifies sessions, heap
      ensures View() == DoLoad(old(View()), num) && |sessions.entries| == |old(sessions.entries)|
    {
      hide LoadedMsgs, LoadedMap, Ascending, Snapshot, FromStored;
      if num >= |sessions.entries| || sessions.entries[num].ref.id !in disk {
        return;
      }
      var stored := disk[sessions.entries[num].ref.id];
      var keys := SortedKeys(stored.Keys);
      var messages: map<PacketId, MsgRef> := map[];
      ghost var base := heap.cells;
      assert keys[..0] == [];
      NothingLoaded(stored, |base|);
      for i := 0 to |keys|
        invariant heap.cells == base + LoadedMsgs(stored, keys[..i])
        invariant messages == LoadedMap(|base|, keys[..i]) && |heap.cells| == |base| + i
        invariant sessions.entries == old(sessions.entries)
      {
        assert keys[i] in keys;
        LoadedNext(stored, |base|, keys, i);
        var ref := heap.New(FromStored(stored[keys[i]]));
        messages := messages[keys[i] := ref];
      }
      assert keys[..|keys|] == keys;
      sessions.entries := sessions.entries[num := sessions.entries[num].(messages := messages)];
    }

    /** PublishToClient (broker.go:398), for an entry of a session's store. */
    method PublishToClient(k: ConnRef, num: nat, id: PacketId)
      requires Sync()
      modifies this`written, this`log, this`retries, messageStore, heap
      ensures Sync()
      ensures View() == DoReplay(old(View()), k, num, id)
    {
      hide Sync, P.PublishPacket, E.Encoded;
      if IsConnected(Some(k)) && num < |sessions.entries| && id in sessions.entries[num].messages {
        var ref := sessions.entries[num].messages[id];
        if ref < |heap.cells| && heap.cells[ref].qos != 0 {
          var cm := heap.cells[ref];
          var packet := P.MakePublishPacketWithID(id, cm.topic, cm.payload, 0, cm.qos, 0);
          heap.cells := heap.cells[ref := cm.(client := Some(k), retain := 0)];
          messageStore.Store(id, ref);
          if cm.status.Unacknowledged? {
            Emit(k, packet, Packet.Publish(id, cm.topic, cm.payload, 0, cm.qos, 0), Some(ref));
          }
          retries := retries + [RetryLoop(id, ref, Early)];
        }
      }
    }

    /** session.replay (session.go:49). */
    method ReplaySession(k: ConnRef, num: nat)
      requires Sync() && num < |sessions.entries|
      modifies this`written, this`log, this`retries, messageStore, heap
      ensures Sync()
      ensures View() == if old(sessions.entries)[num].ref.clean then old(View())
                        else Exec(old(View()), R.Replays(k, num, Ascending(old(sessions.entries)[num].messages.Keys, 0)))
    {
      hide Sync, Wire, Exec, DoReplay, Ascending, StoredOf;
      if sessions.entries[num].ref.clean {
        return;
      }
      ghost var start := View();
      var keys := SortedKeys(sessions.entries[num].messages.Keys);
      ghost var plan := R.Replays(k, num, keys);
      ExecNone(start);
      assert plan[..0] == [];
      for i := 0 to |keys|
        invariant Sync() && View() == Exec(start, plan[..i])
      {
        ExecOne(start, plan[..i], plan[i]);
        assert plan[..i] + [plan[i]] == plan[..i + 1];
        PublishToClient(k, num, keys[i]);
      }
      assert plan[..|keys|] == plan;
    }

    /** client.go:339-358. */
    method OpenSession(k: ConnRef, id: ClientId, clean: bool, will: Option<Message>) returns (num: nat)
      requires k < |conns|
      modifies this`conns, this`disk, sessions, heap
      ensures num == old(|sessions.entries|) < |sessions.entries|
      ensures View() == Do(DoAttach(old(View()), k, id, clean, will), StoreAction(old(View()), id, clean))
    {
      hide DoAttach, DoLoad, Saved;
      num := Attach(k, id, clean, will);
      if clean {
        disk := disk - {id};
      } else if id in disk {
        Load(num);
      } else {
        Put(num);
      }
    }

    /** client.go:337-367. */
    method Connect(k: ConnRef, id: ClientId, clean: bool, will: Option<Message>)
      requires Sync() && k < |conns|
      modifies this`conns, this`written, this`log, this`retries, this`disk, sessions, messageStore, heap
      ensures Sync()
      ensures View() == Exec(old(View()), PlanConnect(old(View()), k, id, clean, will))
    {
      hide Sync, Wire, Exec, DoAttach, DoLoad, Saved, R.Replays, PlanConnect;
      ghost var before := View();
      ConnectPlan(before, k, id, clean, will);
      var present := !clean && id in disk;
      var num := OpenSession(k, id, clean, will);
      Emit(k, Wire(ConnAck(present)), ConnAck(present), None);
      ReplaySession(k, num);
    }

    // ---------- the packet switch of listen ----------

    /** client.go:437. */
    method Hold(num: nat, id: PacketId, topic: Bytes, payload: Bytes)
      modifies sessions, heap
      ensures View() == DoHold(old(View()), num, id, topic, payload)
    {
      if num < |sessions.entries| {
        var ref := heap.New(ClientMessage(None, topic, payload, 2, 0, PubrecReceived, Inbound));
        var s := sessions.entries[num];
        sessions.entries := sessions.entries[num := s.(messages := s.messages[id := ref])];
      }
    }

    /** The acknowledgement of a PUBLISH that is handed on (client.go:426-444). */
    method Answer(k: ConnRef, num: nat, topic: Bytes, payload: Bytes, qos: byte, id: PacketId)
      requires Sync()
      modifies this`written, this`log, sessions, heap
      ensures Sync()
      ensures View() == Exec(old(View()), Answers(k, num, topic, payload, qos, id))
    {
      hide Sync, Wire, Exec, DoHold;
      ghost var before := View();
      if qos == 1 {
        Emit(k, Wire(PubAck(id)), PubAck(id), None);
        ExecSingle(before, Send(k, PubAck(id)));
      } else if qos == 2 {
        Hold(num, id, topic, payload);
        Emit(k, Wire(PubRec(id)), PubRec(id), None);
        ExecTwo(before, Action.Hold(num, id, topic, payload), Send(k, PubRec(id)));
      } else {
        ExecNone(before);
      }
    }

    /** client.go:426-456. */
    method HandlePublish(k: ConnRef, s: SessionRef, topic: Bytes, payload: Bytes, flags: P.PublishFlags, id: PacketId)
      requires Valid()
      modifies this`written, this`log, this`retries, this`disk, sessions, messageStore, heap, packetSeq, topics, topics.levels
      ensures Valid()
      ensures View() == Exec(old(View()), PlanInbound(old(View()), k, s, topic, payload, flags, id))
      ensures fresh(topics.levels - old(topics.levels)) && fresh(topics.lists - old(topics.lists))
    {
      hide Sync, BytesOf, Wire, I.RootOk, S.CurrentBefore, Exec, PlanPublish, PlanInbound, Answers, ValidTopicName;
      ghost var before := View();
      InboundPlan(before, k, s, topic, payload, flags, id);
      if flags.qos == 2 && flags.dup == 1 && s.num < |sessions.entries| && id in sessions.entries[s.num].messages {
        Emit(k, Wire(PubRec(id)), PubRec(id), None);
        return;
      }
      Answer(k, s.num, topic, payload, flags.qos, id);
      NoteForward(k, id, flags.qos, topic, payload);
      var ok := Publish(topic, payload, flags.qos, flags.retain);
    }

    /** client.go:478-479. */
    method HandlePubAck(s: SessionRef, id: PacketId)
      modifies this`disk, sessions, messageStore, heap
      ensures View() == Exec(old(View()), [AckStored(id, PubackReceived, true), AckSession(s.num, id, PubackReceived, true, true)])
    {
      hide Sync, Wire, Exec, DoAckStored, DoAckSession;
      ExecTwo(View(), AckStored(id, PubackReceived, true), AckSession(s.num, id, PubackReceived, true, true));
      StoreAcknowledge(id, PubackReceived, true);
      SessionAcknowledge(s.num, id, PubackReceived, true, true);
    }

    /** client.go:503-505. */
    method HandlePubRec(k: ConnRef, s: SessionRef, id: PacketId)
      requires Sync()
      modifies this`written, this`log, this`disk, sessions, messageStore, heap
      ensures Sync()
      ensures View() == Exec(old(View()), [AckStored(id, PubrecReceived, false), AckSession(s.num, id, PubrecReceived, false, true),
                                           Send(k, PubRel(id))])
    {
      hide Sync, Wire, Exec, DoAckStored, DoAckSession;
      ExecThree(View(), AckStored(id, PubrecReceived, false), AckSession(s.num, id, PubrecReceived, false, true), Send(k, PubRel(id)));
      StoreAcknowledge(id, PubrecReceived, false);
      SessionAcknowledge(s.num, id, PubrecReceived, false, true);
      Emit(k, Wire(PubRel(id)), PubRel(id), None);
    }

    /** client.go:524-525. */
    method HandlePubRel(k: ConnRef, s: SessionRef, id: PacketId)
      requires Sync()
      modifies this`written, this`log, this`disk, sessions, heap
      ensures Sync()
      ensures View() == Exec(old(View()), [AckSession(s.num, id, PubrelReceived, true, false), Send(k, PubComp(id))])
    {
      hide Sync, Wire, Exec, DoAckSession;
      ExecTwo(View(), AckSession(s.num, id, PubrelReceived, true, false), Send(k, PubComp(id)));
      SessionAcknowledge(s.num, id, PubrelReceived, true, false);
      Emit(k, Wire(PubComp(id)), PubComp(id), None);
    }

    /** client.go:548-549. */
    method HandlePubComp(s: SessionRef, id: PacketId)
      modifies this`disk, sessions, messageStore, heap
      ensures View() == Exec(old(View()), [AckStored(id, PubcompReceived, true), AckSession(s.num, id, PubcompReceived, true, true)])
    {
      hide Sync, Wire, Exec, DoAckStored, DoAckSession;
      ExecTwo(View(), AckStored(id, PubcompReceived, true), AckSession(s.num, id, PubcompReceived, true, true));
      StoreAcknowledge(id, PubcompReceived, true);
      SessionAcknowledge(s.num, id, PubcompReceived, true, true);
    }

    /** client.go:591-603. */
    method HandleSubscribe(k: ConnRef, s: SessionRef, id: PacketId, filters: seq<P.FilterQos>)
      requires Valid()
      modifies this`written, this`log, this`retries, messageStore, heap, packetSeq, topics, topics.levels, topics.lists
      ensures Valid()
      ensures View() == Exec(old(View()), PlanFilters(old(topics.model), s, filters) + [Send(k, SubAck(id, Codes(filters)))])
      ensures fresh(topics.levels - old(topics.levels)) && fresh(topics.lists - old(topics.lists))
    {
      hide Sync, Wire, I.RootOk, S.CurrentBefore, Exec, PlanFilters, Codes;
      ExecOne(View(), PlanFilters(topics.model, s, filters), Send(k, SubAck(id, Codes(filters))));
      SubscribeAll(s, filters);
      var packet := P.MakeSubAckPacket(P.Uint16Bytes(id), filters);
      SubAckWire(id, filters);
      Emit(k, packet, SubAck(id, Codes(filters)), None);
    }

    /** client.go:637-649. */
    method HandleUnsubscribe(k: ConnRef, s: SessionRef, id: PacketId, names: seq<Bytes>)
      requires Valid()
      modifies this`written, this`log, sessions, topics`model, topics.levels`model, topics.lists
      ensures Valid()
      ensures View() == Exec(old(View()), Removals(s, names) + [Send(k, UnsubAck(id))])
    {
      hide Sync, Wire, I.RootOk, S.CurrentBefore, Exec, Removals;
      ExecOne(View(), Removals(s, names), Send(k, UnsubAck(id)));
      UnsubscribeEach(s, names);
      Emit(k, Wire(UnsubAck(id)), UnsubAck(id), None);
    }

    /** client.go:651. */
    method HandlePingReq(k: ConnRef)
      requires Sync()
      modifies this`written, this`log
      ensures Sync()
      ensures View() == Exec(old(View()), [Send(k, PingResp)])
    {
      hide Sync, Wire, Exec;
      ExecSingle(View(), Send(k, PingResp));
      Emit(k, Wire(PingResp), PingResp, None);
    }

    method HandleAck(s: SessionRef, e: Event)
      requires e.OnPubAck? || e.OnPubRec? || e.OnPubRel? || e.OnPubComp?
      requires Sync() && e.conn < |conns|
      modifies this`written, this`log, this`disk, sessions, messageStore, heap
      ensures Sync()
      ensures View() == Exec(old(View()), PlanPacket(old(View()), s, e))
    {
      hide Sync, Wire, Exec, Do;
      match e
      case OnPubAck(k, id) => HandlePubAck(s, id);
      case OnPubRec(k, id) => HandlePubRec(k, s, id);
      case OnPubRel(k, id) => HandlePubRel(k, s, id);
      case OnPubComp(k, id) => HandlePubComp(s, id);
    }

    /** The packets that close the connection, open a session or hand a message on. */
    method HandleSession(s: SessionRef, e: Event)
      requires e.OnConnect? || e.OnPublish? || e.OnDisconnect? || e.OnError?
      requires Valid() && e.conn < |conns|
      modifies this`conns, this`written, this`log, this`retries, this`disk, sessions, messageStore, heap, packetSeq, topics, topics.levels, topics.lists
      ensures Valid()
      ensures View() == Exec(old(View()), PlanPacket(old(View()), s, e))
      ensures fresh(topics.levels - old(topics.levels)) && fresh(topics.lists - old(topics.lists))
    {
      hide Sync, Wire, I.RootOk, S.CurrentBefore, S.Sequence.Valid, TS.Storage.Valid, Exec, Do, PlanLeave, PlanConnect, PlanInbound, PlanFilters, ValidTopicName;
      match e
      case OnConnect(k, id, clean, will) =>
        if id == "" { Leave(k, false); } else { Connect(k, id, clean, will); }
      case OnPublish(k, topic, payload, flags, id) =>
        if ValidTopicName(topic) { HandlePublish(k, s, topic, payload, flags, id); } else { Leave(k, false); }
      case OnDisconnect(k) => Leave(k, true);
      case OnError(k) => Leave(k, false);
    }

    /** The packets about filters. */
    method HandleFilters(s: SessionRef, e: Event)
      requires e.OnSubscribe? || e.OnUnsubscribe?
      requires Valid() && e.conn < |conns|
      modifies this`conns, this`written, this`log, this`retries, this`disk, sessions, messageStore, heap, packetSeq, topics, topics.levels, topics.lists
      ensures Valid()
      ensures View() == Exec(old(View()), PlanPacket(old(View()), s, e))
      ensures fresh(topics.levels - old(topics.levels)) && fresh(topics.lists - old(topics.lists))
    {
      hide Sync, Wire, I.RootOk, S.CurrentBefore, S.Sequence.Valid, TS.Storage.Valid, Exec, Do, PlanLeave, PlanConnect, PlanInbound, PlanFilters, ValidTopicName;
      match e
      case OnSubscribe(k, id, filters) => HandleSubscribe(k, s, id, filters);
      case OnUnsubscribe(k, id, names) => HandleUnsubscribe(k, s, id, names);
    }

    /** One pass of the loop of listen (client.go:174-660), for a client that has a session. */
    method HandlePacket(s: SessionRef, e: Event)
      requires Valid() && !e.Accept? && !e.OnTick? && e.conn < |conns|
      modifies this`conns, this`written, this`log, this`retries, this`disk, sessions, messageStore, heap, packetSeq, topics, topics.levels, topics.lists
      ensures Valid()
      ensures View() == Exec(old(View()), PlanPacket(old(View()), s, e))
      ensures fresh(topics.levels - old(topics.levels)) && fresh(topics.lists - old(topics.lists))
    {
      hide Sync, Wire, I.RootOk, S.CurrentBefore, S.Sequence.Valid, TS.Storage.Valid, Exec, Do, PlanPacket;
      if e.OnPubAck? || e.OnPubRec? || e.OnPubRel? || e.OnPubComp? {
        HandleAck(s, e);
      } else if e.OnPingReq? {
        PingPlan(View(), s, e);
        HandlePingReq(e.conn);
      } else if e.OnSubscribe? || e.OnUnsubscribe? {
        HandleFilters(s, e);
      } else {
        HandleSession(s, e);
      }
    }

    /** One check of a goroutine running Retry (broker.go:416). */
    method Retry(n: nat)
      requires Sync()
      modifies this`written, this`log, this`retries
      ensures Sync()
      ensures View() == DoRetry(old(View()), n)
    {
      hide Sync, E.Encoded;
      if n >= |retries| || retries[n].msg >= |heap.cells| {
        return;
      }
      var loop := retries[n];
      var m := heap.cells[loop.msg];
      if loop.phase.Stopped? {
        return;
      }
      if !IsConnected(m.client) || m.status.PubackReceived? || m.status.PubcompReceived? {
        retries := retries[n := loop.(phase := Stopped)];
        return;
      }
      if loop.phase.Early? {
        retries := retries[n := loop.(phase := Late)];
        return;
      }
      retries := retries[n := loop.(phase := Early)];
      if m.status.Unacknowledged? {
        var packet := P.MakePublishPacketWithID(loop.id, m.topic, m.payload, 1, m.qos, m.retain);
        Emit(m.client.value, packet, RetryPacket(loop.id, m).value, Some(loop.msg));
      } else if m.status.PubrecReceived? {
        Emit(m.client.value, Wire(PubRel(loop.id)), PubRel(loop.id), None);
      } else if m.status.PubrelReceived? {
        Emit(m.client.value, Wire(PubComp(loop.id)), PubComp(loop.id), None);
      }
    }

    method HandleAny(e: Event)
      requires Valid()
      modifies this`conns, this`written, this`log, this`retries, this`disk, sessions, messageStore, heap, packetSeq, topics, topics.levels, topics.lists
      ensures Valid()
      ensures View() == Exec(old(View()), Plan(old(View()), e))
      ensures fresh(topics.levels - old(topics.levels)) && fresh(topics.lists - old(topics.lists))
    {
      hide Sync, Wire, I.RootOk, S.CurrentBefore, S.Sequence.Valid, TS.Storage.Valid, Exec, DoRetry, PlanPacket, PlanConnect;
      ExecNone(View());
      if e.Accept? {
        ExecSingle(View(), Action.Open);
        Open();
      } else if e.OnTick? {
        ExecSingle(View(), Action.Retry(e.loop));
        Retry(e.loop);
      } else if IsConnected(Some(e.conn)) {
        if conns[e.conn].session.Some? {
          HandlePacket(conns[e.conn].session.value, e);
        } else if e.OnConnect? && e.client != "" {
          Connect(e.conn, e.client, e.clean, e.will);
        } else {
          ExecSingle(View(), Close(e.conn));
          CloseConnection(e.conn);
        }
      }
    }

    /** Whatever happens next, the broker's objects change as the step system says: so every theorem
        about its runs is one about these methods. */
    method Handle(e: Event)
      requires Valid()
      modifies this, sessions, messageStore, heap, packetSeq, topics, topics.levels, topics.lists
      ensures Valid()
      ensures View() == Step(old(View()), e)
      ensures fresh(topics.levels - old(topics.levels)) && fresh(topics.lists - old(topics.lists))
    {
      hide Sync, Wire, I.RootOk, S.CurrentBefore, S.Sequence.Valid, TS.Storage.Valid, Exec, Plan;
      HandleAny(e);
      clock := clock + 1;
    }
  }

  /** What answers a PUBLISH that is handed on. */
  function Answers(k: ConnRef, num: nat, topic: Bytes, payload: Bytes, qos: byte, id: PacketId): seq<Action> {
    if qos == 1 then [Send(k, PubAck(id))]
    else if qos == 2 then [Hold(num, id, topic, payload), Send(k, PubRec(id))]
    else []
  }

  function Codes(filters: seq<P.FilterQos>): Bytes {
    seq(|filters|, i requires 0 <= i < |filters| => P.SubackCode(filters[i]))
  }

  lemma SubAckWire(id: PacketId, filters: seq<P.FilterQos>)
    ensures Wire(SubAck(id, Codes(filters)))
         == [P.TYPE_SUBACK * 16] + E.Encoded(P.SUBACK_REM_LEN + |filters|) + P.Uint16Bytes(id)
            + seq(|filters|, i requires 0 <= i < |filters| => P.SubackCode(filters[i]))
  {
    hide E.Encoded;
    assert Codes(filters) == seq(|filters|, i requires 0 <= i < |filters| => P.SubackCode(filters[i]));
  }

  function Removals(s: SessionRef, names: seq<Bytes>): seq<Action> {
    seq(|names|, i requires 0 <= i < |names| => Index(I.Unsubscribe(s, names[i])))
  }

  lemma InboundPlan(st: State, k: ConnRef, s: SessionRef, topic: Bytes, payload: Bytes, flags: P.PublishFlags, id: PacketId)
    ensures Exec(st, PlanInbound(st, k, s, topic, payload, flags, id))
         == if flags.qos == 2 && flags.dup == 1 && s.num < |st.sessions| && id in st.sessions[s.num].messages then
              Logged(st, Sent(k, PubRec(id), None))
            else
              Exec(Logged(Exec(st, Answers(k, s.num, topic, payload, flags.qos, id)), Forwarded(k, id, flags.qos, topic, payload)),
                   PlanPublish(st.topics, topic, payload, flags.qos, flags.retain, st.clock))
  {
    hide Exec, PlanPublish, DoHold;
    var first := Answers(k, s.num, topic, payload, flags.qos, id);
    var forward := Forward(k, id, flags.qos, topic, payload);
    ExecSingle(st, Send(k, PubRec(id)));
    ExecOne(st, first, forward);
    ExecJoin(st, first + [forward], PlanPublish(st.topics, topic, payload, flags.qos, flags.retain, st.clock));
  }

  /** What CONNECT does with the session store (client.go:341-358). */
  function StoreAction(st: State, id: ClientId, clean: bool): Action {
    if clean then Erase(id) else if id in st.disk then Load(|st.sessions|) else Save(|st.sessions|)
  }

  lemma NothingLoaded(stored: map<PacketId, Stored>, base: nat)
    ensures LoadedMsgs(stored, []) == [] && LoadedMap(base, []) == map[]
  {
  }

  lemma LoadedNext(stored: map<PacketId, Stored>, base: nat, keys: seq<PacketId>, i: nat)
    requires i < |keys| && forall id :: id in keys ==> id in stored
    ensures LoadedMsgs(stored, keys[..i + 1]) == LoadedMsgs(stored, keys[..i]) + [FromStored(stored[keys[i]])]
    ensures LoadedMap(base, keys[..i + 1]) == LoadedMap(base, keys[..i])[keys[i] := base + i]
  {
    assert keys[..i + 1][..i] == keys[..i];
  }

  lemma {:induction false} LoadedKeys(base: nat, keys: seq<PacketId>)
    ensures forall id :: id in LoadedMap(base, keys) <==> id in keys
  {
    if keys != [] {
      LoadedKeys(base, keys[..|keys| - 1]);
      assert keys == keys[..|keys| - 1] + [keys[|keys| - 1]];
    }
  }

  /** The keys replay goes through are those the session store held at the CONNECT. */
  lemma KeysAtReplay(st: State, k: ConnRef, id: ClientId, clean: bool, will: Option<Message>)
    requires k < |st.conns|
    ensures var num := |st.sessions|;
            var ready := Do(DoAttach(st, k, id, clean, will), StoreAction(st, id, clean));
            && num < |ready.sessions| && ready.sessions[num].ref == SessionRef(id, num, clean)
            && ready.sessions[num].messages.Keys == if !clean && id in st.disk then st.disk[id].Keys else {}
  {
    hide Ascending, Snapshot, LoadedMsgs, LoadedMap;
    if !clean && id in st.disk {
      var keys := Ascending(st.disk[id].Keys, 0);
      R.AscendingIsSorted(st.disk[id].Keys, 0);
      LoadedKeys(|st.msgs|, keys);
      assert LoadedMap(|st.msgs|, keys).Keys == st.disk[id].Keys;
    }
  }

  lemma {:induction false} ConnectPlan(st: State, k: ConnRef, id: ClientId, clean: bool, will: Option<Message>)
    requires k < |st.conns|
    ensures var num := |st.sessions|;
            var ready := Do(DoAttach(st, k, id, clean, will), StoreAction(st, id, clean));
            && num < |ready.sessions| && ready.sessions[num].ref.clean == clean
            && Exec(st, PlanConnect(st, k, id, clean, will))
            == var sent := Logged(ready, Sent(k, ConnAck(!clean && id in st.disk), None));
               if clean then sent else Exec(sent, R.Replays(k, num, Ascending(ready.sessions[num].messages.Keys, 0)))
  {
    hide DoAttach, Do, Exec, Ascending, StoreAction, R.Replays, PlanConnect;
    KeysAtReplay(st, k, id, clean, will);
    ConnectActions(st, k, id, clean, will);
    var present := !clean && id in st.disk;
    var keys := if present then Ascending(st.disk[id].Keys, 0) else [];
    ConnectHead(st, k, id, clean, will, present);
    ExecJoin(st, [Attach(k, id, clean, will), StoreAction(st, id, clean), Send(k, ConnAck(present))], R.Replays(k, |st.sessions|, keys));
    NothingAscending(0);
    if clean {
      NothingReplayed(k, |st.sessions|);
      ExecNone(Exec(st, [Attach(k, id, clean, will), StoreAction(st, id, clean), Send(k, ConnAck(present))]));
    }
  }

  lemma NothingReplayed(k: ConnRef, num: nat)
    ensures R.Replays(k, num, []) == []
  {
  }

  lemma ConnectActions(st: State, k: ConnRef, id: ClientId, clean: bool, will: Option<Message>)
    ensures var present := !clean && id in st.disk;
            PlanConnect(st, k, id, clean, will)
            == [Attach(k, id, clean, will), StoreAction(st, id, clean), Send(k, ConnAck(present))]
               + R.Replays(k, |st.sessions|, if present then Ascending(st.disk[id].Keys, 0) else [])
  {
    hide Ascending;
  }

  lemma ConnectHead(st: State, k: ConnRef, id: ClientId, clean: bool, will: Option<Message>, present: bool)
    ensures Exec(st, [Attach(k, id, clean, will), StoreAction(st, id, clean), Send(k, ConnAck(present))])
         == Logged(Do(DoAttach(st, k, id, clean, will), StoreAction(st, id, clean)), Sent(k, ConnAck(present), None))
  {
    hide DoAttach, DoLoad, Saved, Exec, StoreAction, DoDeliver, DoDeliverRetained, DoIndex, DoAckStored, DoAckSession, DoHold, DoReplay, DoRetry;
    ExecThree(st, Attach(k, id, clean, will), StoreAction(st, id, clean), Send(k, ConnAck(present)));
  }

  lemma {:induction false} NothingAscending(lo: nat)
    requires lo <= 65536
    ensures Ascending({}, lo) == []
    decreases 65536 - lo
  {
    if lo < 65536 {
      NothingAscending(lo + 1);
    }
  }

  lemma LeavePlan(st: State, k: ConnRef, graceful: bool)
    requires k < |st.conns|
    ensures var c := st.conns[k];
            PlanLeave(st, k, graceful)
            == if c.session.None? then [Close(k)]
               else
                 var op := I.UnsubscribeAll(c.session.value, graceful);
                 if graceful || c.will.None? then [Close(k), Index(op)]
                 else [Close(k), Index(op)]
                      + PlanPublish(I.Apply(st.topics, op), c.will.value.topic, c.will.value.payload, c.will.value.qos, c.will.value.retain, st.clock)
  {
    hide PlanPublish, I.Apply;
  }

  lemma ExecSingle(st: State, a: Action)
    ensures Exec(st, [a]) == Do(st, a)
  {
    hide Do;
    assert [a][..0] == [] && Exec(st, []) == st;
  }

  lemma ExecTwo(st: State, a: Action, b: Action)
    ensures Exec(st, [a, b]) == Do(Do(st, a), b)
  {
    hide Do;
    assert [a, b][..1] == [a];
    ExecSingle(st, a);
  }

  lemma ExecThree(st: State, a: Action, b: Action, c: Action)
    ensures Exec(st, [a, b, c]) == Do(Do(Do(st, a), b), c)
  {
    hide Do;
    assert [a, b, c][..2] == [a, b];
    ExecTwo(st, a, b);
  }

  lemma IndexEffect(st: State, s: SessionRef, graceful: bool)
    ensures DoIndex(st, I.UnsubscribeAll(s, graceful))
         == st.(topics := I.Apply(st.topics, I.UnsubscribeAll(s, graceful)),
                sessions := DetachKids(st.sessions, st.topics.kids, s.id, graceful || s.clean, s.clean))
  {
  }

  lemma PublishPlan(st: State, topic: Bytes, payload: Bytes, qos: byte, retain: bool)
    ensures Exec(st, PlanPublish(st.topics, topic, payload, qos, retain, st.clock))
         == if !ValidTopicName(topic) then st
            else F.After(F.AfterRetaining(st, topic, payload, qos, retain), Recipients(T.Match(st.topics, Split(topic))), topic, payload, qos)
  {
    hide F.After, F.AfterRetaining, T.Match, Split, Recipients, RetainOp, I.Apply;
    if ValidTopicName(topic) {
      F.AfterIsExec(F.AfterRetaining(st, topic, payload, qos, retain), Recipients(T.Match(st.topics, Split(topic))), topic, payload, qos);
      F.PublishIsDeliveries(st, topic, payload, qos, retain);
    }
  }

  lemma PingPlan(st: State, s: SessionRef, e: Event)
    requires e.OnPingReq? && e.conn < |st.conns|
    ensures PlanPacket(st, s, e) == [Send(e.conn, PingResp)]
  {
  }

  lemma {:induction false} SubscribePlan(st: State, s: SessionRef, f: P.FilterQos)
    ensures var indexed := st.(topics := I.Apply(st.topics, I.Subscribe(s, f.filter, f.qos)));
            Exec(st, PlanSubscribe(st.topics, s, f))
            == if !ValidFilterName(f.filter) then st
               else Exec(indexed, RetainedDeliveries(SortByTime(T.Reverse(indexed.topics, Split(f.filter))), Subscription(s, f.qos)))
  {
    hide Exec, I.Apply, T.Reverse, SortByTime, Split, RetainedDeliveries, ValidFilterName;
    var op := I.Subscribe(s, f.filter, f.qos);
    ExecNone(st);
    ExecFirst(st, Index(op), RetainedDeliveries(SortByTime(T.Reverse(I.Apply(st.topics, op), Split(f.filter))), Subscription(s, f.qos)));
  }

  lemma NoFilters(root: T.Tree, s: SessionRef)
    ensures PlanFilters(root, s, []) == [] && TopicsAfter(root, s, []) == root
  {
  }

  lemma ExecJoin(st: State, a: seq<Action>, b: seq<Action>)
    ensures Exec(st, a + b) == Exec(Exec(st, a), b)
  {
    hide Exec;
    H.ExecSplit(st, a + b, |a|);
    assert (a + b)[..|a|] == a && (a + b)[|a|..] == b;
  }

  lemma MoreFilters(st: State, s: SessionRef, filters: seq<P.FilterQos>, i: nat)
    requires i < |filters|
    ensures TopicsAfter(st.topics, s, filters[..i + 1])
         == I.Apply(TopicsAfter(st.topics, s, filters[..i]), I.Subscribe(s, filters[i].filter, filters[i].qos))
    ensures Exec(st, PlanFilters(st.topics, s, filters[..i + 1]))
         == Exec(Exec(st, PlanFilters(st.topics, s, filters[..i])), PlanSubscribe(TopicsAfter(st.topics, s, filters[..i]), s, filters[i]))
  {
    hide Exec, PlanSubscribe, I.Apply;
    assert filters[..i + 1][..i] == filters[..i];
    ExecJoin(st, PlanFilters(st.topics, s, filters[..i]), PlanSubscribe(TopicsAfter(st.topics, s, filters[..i]), s, filters[i]));
  }

  lemma {:induction false} TopicsOfSubscribe(st: State, s: SessionRef, f: P.FilterQos)
    ensures Exec(st, PlanSubscribe(st.topics, s, f)).topics == I.Apply(st.topics, I.Subscribe(s, f.filter, f.qos))
  {
    hide I.Apply, T.Reverse, SortByTime, Split, Exec, PlanSubscribe, RetainedDeliveries;
    var op := I.Subscribe(s, f.filter, f.qos);
    SubscribePlan(st, s, f);
    if ValidFilterName(f.filter) {
      var indexed := st.(topics := I.Apply(st.topics, op));
      RetainedKeepTopics(indexed, SortByTime(T.Reverse(indexed.topics, Split(f.filter))), Subscription(s, f.qos));
    } else {
      InvalidSubscribes(st.topics, op);
    }
  }

  lemma {:induction false} RetainedKeepTopics(st: State, found: seq<T.Tree>, sub: Subscription)
    ensures Exec(st, RetainedDeliveries(found, sub)).topics == st.topics
  {
    if found != [] {
      var n := |found| - 1;
      RetainedKeepTopics(st, found[..n], sub);
      if found[n].retained.Some? {
        ExecOne(st, RetainedDeliveries(found[..n], sub), DeliverRetained(sub, found[n].retained.value));
      } else {
        assert RetainedDeliveries(found[..n], sub) + [] == RetainedDeliveries(found[..n], sub);
      }
    }
  }

  ghost function Models(nodes: seq<TopicLevel>): seq<T.Tree>
    reads nodes
  {
    seq(|nodes|, i requires 0 <= i < |nodes| reads nodes => nodes[i].model)
  }

  lemma ModelsOf(nodes: seq<TopicLevel>, trees: seq<T.Tree>, within: set<TopicLevel>)
    requires Extends(nodes, [], trees, within)
    ensures Models(nodes) == trees
    ensures forall k :: 0 <= k < |nodes| ==> nodes[k].model.retained == nodes[k].retainedMessage
  {
    forall k | 0 <= k < |nodes| ensures nodes[k].model.retained == nodes[k].retainedMessage {
      nodes[k].Unfold();
    }
  }

  lemma SortNone()
    ensures SortByTime([]) == []
  {
  }

  lemma SortNext(ts: seq<T.Tree>)
    requires ts != []
    ensures SortByTime(ts) == InsertByTime(SortByTime(ts[..|ts| - 1]), ts[|ts| - 1])
  {
  }

  lemma NoRetainedDeliveries(sub: Subscription)
    ensures RetainedDeliveries([], sub) == []
  {
  }

  lemma MoreRetainedDeliveries(trees: seq<T.Tree>, i: nat, sub: Subscription)
    requires i < |trees|
    ensures RetainedDeliveries(trees[..i + 1], sub) == RetainedDeliveries(trees[..i], sub)
            + if trees[i].retained.Some? then [DeliverRetained(sub, trees[i].retained.value)] else []
  {
    assert trees[..i + 1][..i] == trees[..i];
  }

  lemma InvalidSubscribes(root: T.Tree, op: I.Op)
    requires op.Subscribe? && !ValidFilterName(op.filter)
    ensures I.Apply(root, op) == root
  {
  }

  lemma ExecFirst(st: State, a: Action, rest: seq<Action>)
    ensures Exec(st, [a] + rest) == Exec(Do(st, a), rest)
  {
    hide Do;
    H.ExecSplit(st, [a] + rest, 1);
    assert ([a] + rest)[..1] == [a] && ([a] + rest)[1..] == rest;
    assert [a][..0] == [] && Exec(st, []) == st;
  }

  lemma RootIsWellFormed(root: T.Tree)
    requires I.RootOk(root)
    ensures T.WellFormed(root)
  {
  }

  lemma NoRecipients(st: State, topic: Bytes, payload: Bytes, qos: byte)
    ensures Recipients([]) == [] && F.After(st, [], topic, payload, qos) == st
  {
  }

  lemma MoreRecipients(trees: seq<T.Tree>, i: nat)
    requires i < |trees|
    ensures Recipients(trees[..i + 1]) == Recipients(trees[..i]) + trees[i].subs
  {
    assert trees[..i + 1][..i] == trees[..i];
  }

  lemma AfterOne(st: State, past: seq<Subscription>, sub: Subscription, topic: Bytes, payload: Bytes, qos: byte)
    ensures F.After(st, past + [sub], topic, payload, qos) == DoDeliver(F.After(st, past, topic, payload, qos), sub, topic, payload, qos)
  {
    assert (past + [sub])[..|past|] == past;
  }

  lemma {:induction false} AfterMore(st: State, past: seq<Subscription>, subs: seq<Subscription>, topic: Bytes, payload: Bytes, qos: byte)
    ensures F.After(F.After(st, past, topic, payload, qos), subs, topic, payload, qos) == F.After(st, past + subs, topic, payload, qos)
    decreases |subs|
  {
    if subs == [] {
      assert past + subs == past;
    } else {
      var n := |subs| - 1;
      AfterMore(st, past, subs[..n], topic, payload, qos);
      assert (past + subs)[..|past + subs| - 1] == past + subs[..n];
    }
  }

  lemma ListsOf(nodes: seq<TopicLevel>, trees: seq<T.Tree>, within: set<TopicLevel>)
    requires Extends(nodes, [], trees, within)
    ensures |nodes| == |trees|
    ensures forall k :: 0 <= k < |nodes| ==> nodes[k].subscriptions.subs == trees[k].subs && nodes[k].retainedMessage == trees[k].retained
  {
    forall k | 0 <= k < |nodes| ensures nodes[k].subscriptions.subs == trees[k].subs && nodes[k].retainedMessage == trees[k].retained {
      nodes[k].Unfold();
    }
  }
}

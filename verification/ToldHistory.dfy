/** Who holds which filter and which message each topic retains, told from the events of a run alone: what
    clients asked for and what was published, whatever the broker made of it. */
module ToldHistory {
  import opened Base
  import opened Filters
  import opened Delivery
  import opened BrokerInvariant
  import opened Sessions
  import I = IndexSpec
  import P = Packets
  import T = TopicTree

  // ---------- the tree is built by the operations of the events ----------

  function OpsIn(actions: seq<Action>): seq<I.Op> {
    if actions == [] then []
    else
      var n := |actions| - 1;
      OpsIn(actions[..n]) + OpOf(actions[n])
  }

  /** What an action means for who holds which filter: a new session, with the clean flag of its CONNECT,
      or an operation on the tree. */
  function OpOf(a: Action): seq<I.Op> {
    match a
    case Index(op) => [op]
    case Attach(_, client, clean, _) => [I.Begin(client, clean)]
    case _ => []
  }

  function AllOps(st: State, events: seq<Event>): seq<I.Op> {
    if events == [] then []
    else
      var n := |events| - 1;
      AllOps(st, events[..n]) + OpsIn(Plan(Run(st, events[..n]), events[n]))
  }

  function ApplyAll(root: T.Tree, ops: seq<I.Op>): T.Tree {
    if ops == [] then root else I.Apply(ApplyAll(root, ops[..|ops| - 1]), ops[|ops| - 1])
  }

  lemma {:induction false} ApplyAllSplit(root: T.Tree, a: seq<I.Op>, b: seq<I.Op>)
    ensures ApplyAll(root, a + b) == ApplyAll(ApplyAll(root, a), b)
    decreases |b|
  {
    hide I.Apply;
    if b == [] {
      assert a + b == a;
    } else {
      var n := |b| - 1;
      ApplyAllSplit(root, a, b[..n]);
      assert (a + b)[..|a + b| - 1] == a + b[..n];
    }
  }

  lemma {:induction false} RunIsApplyAll(ops: seq<I.Op>)
    ensures I.Run(ops) == ApplyAll(T.EMPTY_TREE, ops)
  {
    if ops != [] {
      RunIsApplyAll(ops[..|ops| - 1]);
    }
  }

  lemma OneOp(root: T.Tree, a: Action)
    ensures ApplyAll(root, OpOf(a)) == if a.Index? then I.Apply(root, a.op) else root
  {
    if OpOf(a) != [] {
      assert OpOf(a)[..0] == [] && ApplyAll(root, []) == root;
    }
  }

  lemma {:induction false} ExecTopics(st: State, actions: seq<Action>)
    ensures Exec(st, actions).topics == ApplyAll(st.topics, OpsIn(actions))
  {
    if actions != [] {
      var n := |actions| - 1;
      var mid := Exec(st, actions[..n]);
      ExecTopics(st, actions[..n]);
      TopicsOfDo(mid, actions[n]);
      hide Do;
      ApplyAllSplit(st.topics, OpsIn(actions[..n]), OpOf(actions[n]));
      OneOp(mid.topics, actions[n]);
    }
  }

  lemma {:induction false} RunTopics(disk: Disk, events: seq<Event>)
    ensures Run(Initial(disk), events).topics == I.Run(AllOps(Initial(disk), events))
  {
    RunTopicsFold(disk, events);
    RunIsApplyAll(AllOps(Initial(disk), events));
  }

  lemma {:induction false} RunTopicsFold(disk: Disk, events: seq<Event>)
    ensures Run(Initial(disk), events).topics == ApplyAll(T.EMPTY_TREE, AllOps(Initial(disk), events))
  {
    if events != [] {
      hide Plan, Exec;
      var n := |events| - 1;
      var mid := Run(Initial(disk), events[..n]);
      RunTopicsFold(disk, events[..n]);
      ExecTopics(mid, Plan(mid, events[n]));
      ApplyAllSplit(T.EMPTY_TREE, AllOps(Initial(disk), events[..n]), OpsIn(Plan(mid, events[n])));
    }
  }

  // ---------- what an event means ----------

  /** A message published with RETAIN is its topic's from now on; one without a payload clears the topic
      (section 3.3.1.3 of MQTT 3.1.1). */
  function Remembered(retained: map<Path, Message>, topic: Bytes, payload: Bytes, qos: byte, retain: bool, now: int): map<Path, Message> {
    if !retain || !ValidTopicName(topic) then retained
    else if payload == [] then retained - {Split(topic)}
    else retained[Split(topic) := Message(topic, payload, qos, false, now)]
  }

  function WithHeld(h: I.History, c: ClientId, filters: set<Path>): I.History {
    h.(held := h.held[c := filters])
  }

  function TellFilters(h: I.History, c: ClientId, filters: seq<P.FilterQos>): I.History {
    if filters == [] then h
    else
      var n := |filters| - 1;
      var before := TellFilters(h, c, filters[..n]);
      if ValidFilterName(filters[n].filter) then WithHeld(before, c, I.HeldBy(before, c) + {Split(filters[n].filter)}) else before
  }

  function TellNames(h: I.History, c: ClientId, names: seq<Bytes>): I.History {
    if names == [] then h
    else
      var n := |names| - 1;
      var before := TellNames(h, c, names[..n]);
      if ValidFilterName(names[n]) then WithHeld(before, c, I.HeldBy(before, c) - {Split(names[n])}) else before
  }

  /** A connection ends: a clean session with it, and its will is published unless it said DISCONNECT. */
  function TellLeaving(h: I.History, st: State, c: Conn, graceful: bool): I.History {
    if c.session.None? then h
    else
      var s := c.session.value;
      var left := if s.clean then WithHeld(h, s.id, {}) else h;
      if graceful || c.will.None? then left
      else
        var w := c.will.value;
        left.(retained := Remembered(left.retained, w.topic, w.payload, w.qos, w.retain, st.clock))
  }

  /** A PUBLISH of QoS 2 that is marked as a duplicate of one still waiting for its PUBREL. */
  predicate Duplicate(st: State, s: SessionRef, flags: P.PublishFlags, id: PacketId) {
    flags.qos == 2 && flags.dup == 1 && s.num < |st.sessions| && id in st.sessions[s.num].messages
  }

  function TellConnect(h: I.History, id: ClientId, clean: bool): I.History {
    if clean then WithHeld(h, id, {}) else h
  }

  function Tell(h: I.History, st: State, e: Event): I.History {
    if e.Accept? || e.OnTick? || !Connected(st, Some(e.conn)) then h
    else
      var c := st.conns[e.conn];
      match c.session
      case None => if e.OnConnect? && e.client != "" then TellConnect(h, e.client, e.clean) else h
      case Some(s) =>
        match e
        case OnConnect(_, id, clean, _) => if id == "" then TellLeaving(h, st, c, false) else TellConnect(h, id, clean)
        case OnPublish(_, topic, payload, flags, id) =>
          if !ValidTopicName(topic) then TellLeaving(h, st, c, false)
          else if Duplicate(st, s, flags, id) then h
          else h.(retained := Remembered(h.retained, topic, payload, flags.qos, flags.retain, st.clock))
        case OnSubscribe(_, _, filters) => TellFilters(h, s.id, filters)
        case OnUnsubscribe(_, _, names) => TellNames(h, s.id, names)
        case OnDisconnect(_) => TellLeaving(h, st, c, true)
        case OnError(_) => TellLeaving(h, st, c, false)
        case _ => h
  }

  function Told(disk: Disk, events: seq<Event>): I.History {
    if events == [] then I.History(map[], map[])
    else
      var n := |events| - 1;
      Tell(Told(disk, events[..n]), Run(Initial(disk), events[..n]), events[n])
  }

  // ---------- it is what the operations on the index record ----------

  function RecordAll(h: I.History, ops: seq<I.Op>): I.History {
    if ops == [] then h else I.Record(RecordAll(h, ops[..|ops| - 1]), ops[|ops| - 1])
  }

  lemma {:induction false} RecordedSplit(a: seq<I.Op>, b: seq<I.Op>)
    ensures I.Recorded(a + b) == RecordAll(I.Recorded(a), b)
    decreases |b|
  {
    hide I.Record;
    if b == [] {
      assert a + b == a;
    } else {
      var n := |b| - 1;
      RecordedSplit(a, b[..n]);
      assert (a + b)[..|a + b| - 1] == a + b[..n];
    }
  }

  lemma {:induction false} RecordAllSplit(h: I.History, a: seq<I.Op>, b: seq<I.Op>)
    ensures RecordAll(h, a + b) == RecordAll(RecordAll(h, a), b)
    decreases |b|
  {
    hide I.Record;
    if b == [] {
      assert a + b == a;
    } else {
      var n := |b| - 1;
      RecordAllSplit(h, a, b[..n]);
      assert (a + b)[..|a + b| - 1] == a + b[..n];
    }
  }

  /** What a list of actions records. */
  function Recording(h: I.History, actions: seq<Action>): I.History {
    RecordAll(h, OpsIn(actions))
  }

  lemma RecordingMore(h: I.History, actions: seq<Action>, a: Action)
    ensures Recording(h, actions + [a]) == RecordAll(Recording(h, actions), OpOf(a))
  {
    assert (actions + [a])[..|actions|] == actions;
    RecordAllSplit(h, OpsIn(actions), OpOf(a));
  }

  lemma {:induction false} RecordingJoin(h: I.History, a: seq<Action>, b: seq<Action>)
    ensures Recording(h, a + b) == Recording(Recording(h, a), b)
    decreases |b|
  {
    hide RecordAll, OpOf;
    if b == [] {
      assert a + b == a;
      NothingRecorded(Recording(h, a));
    } else {
      var n := |b| - 1;
      RecordingJoin(h, a, b[..n]);
      RecordingMore(h, a + b[..n], b[n]);
      RecordingMore(Recording(h, a), b[..n], b[n]);
      assert a + b == (a + b[..n]) + [b[n]] && b == b[..n] + [b[n]];
    }
  }

  lemma NothingRecorded(h: I.History)
    ensures Recording(h, []) == h
  {
  }

  /** An action that is no operation and no new session records nothing. */
  predicate Mute(a: Action) {
    !a.Index? && !a.Attach?
  }

  lemma {:induction false} MuteRecordsNothing(h: I.History, actions: seq<Action>)
    requires forall i :: 0 <= i < |actions| ==> Mute(actions[i])
    ensures Recording(h, actions) == h
    decreases |actions|
  {
    if actions == [] {
      NothingRecorded(h);
    } else {
      var n := |actions| - 1;
      MuteRecordsNothing(h, actions[..n]);
      RecordingMore(h, actions[..n], actions[n]);
      assert actions == actions[..n] + [actions[n]] && OpOf(actions[n]) == [];
    }
  }

  lemma OneOpRecorded(h: I.History, op: I.Op)
    ensures Recording(h, [Index(op)]) == I.Record(h, op)
  {
    hide I.Record;
    assert [Index(op)][..0] == [] && OpsIn([]) == [] && OpsIn([Index(op)]) == [op];
    assert [op][..0] == [] && RecordAll(h, []) == h && RecordAll(h, [op]) == I.Record(RecordAll(h, []), op);
  }

  lemma PublishRecorded(h: I.History, topics: T.Tree, topic: Bytes, payload: Bytes, qos: byte, retain: bool, clock: int)
    ensures Recording(h, PlanPublish(topics, topic, payload, qos, retain, clock))
         == h.(retained := Remembered(h.retained, topic, payload, qos, retain, clock))
  {
    hide T.Match, Recipients, Split, Recording;
    if ValidTopicName(topic) {
      var rest := Deliveries(Recipients(T.Match(topics, Split(topic))), topic, payload, qos);
      if retain {
        var op := RetainOp(topic, payload, qos, clock);
        RecordingJoin(h, [Index(op)], rest);
        OneOpRecorded(h, op);
        MuteRecordsNothing(I.Record(h, op), rest);
      } else {
        assert PlanPublish(topics, topic, payload, qos, retain, clock) == rest;
        MuteRecordsNothing(h, rest);
      }
    } else {
      NothingRecorded(h);
    }
  }

  lemma {:induction false} RetainedMute(found: seq<T.Tree>, sub: Subscription)
    ensures forall i :: 0 <= i < |RetainedDeliveries(found, sub)| ==> Mute(RetainedDeliveries(found, sub)[i])
  {
    if found != [] {
      RetainedMute(found[..|found| - 1], sub);
    }
  }

  lemma SubscribeRecorded(h: I.History, topics: T.Tree, s: SessionRef, f: P.FilterQos)
    ensures Recording(h, PlanSubscribe(topics, s, f))
         == if ValidFilterName(f.filter) then WithHeld(h, s.id, I.HeldBy(h, s.id) + {Split(f.filter)}) else h
  {
    hide I.Apply, T.Reverse, SortByTime, Split, Recording, RetainedDeliveries, ValidFilterName;
    if ValidFilterName(f.filter) {
      var op := I.Subscribe(s, f.filter, f.qos);
      var found := SortByTime(T.Reverse(I.Apply(topics, op), Split(f.filter)));
      RecordingJoin(h, [Index(op)], RetainedDeliveries(found, Subscription(s, f.qos)));
      OneOpRecorded(h, op);
      RetainedMute(found, Subscription(s, f.qos));
      MuteRecordsNothing(I.Record(h, op), RetainedDeliveries(found, Subscription(s, f.qos)));
    } else {
      NothingRecorded(h);
    }
  }

  lemma {:induction false} FiltersRecorded(h: I.History, topics: T.Tree, s: SessionRef, filters: seq<P.FilterQos>)
    ensures Recording(h, PlanFilters(topics, s, filters)) == TellFilters(h, s.id, filters)
    decreases |filters|
  {
    hide PlanSubscribe, Split, ValidFilterName, Recording, I.Apply;
    if filters == [] {
      NothingRecorded(h);
    } else {
      var n := |filters| - 1;
      var next := PlanSubscribe(TopicsAfter(topics, s, filters[..n]), s, filters[n]);
      FiltersRecorded(h, topics, s, filters[..n]);
      RecordingJoin(h, PlanFilters(topics, s, filters[..n]), next);
      SubscribeRecorded(TellFilters(h, s.id, filters[..n]), TopicsAfter(topics, s, filters[..n]), s, filters[n]);
    }
  }

  function Unsubscribes(s: SessionRef, names: seq<Bytes>): seq<Action> {
    seq(|names|, i requires 0 <= i < |names| => Index(I.Unsubscribe(s, names[i])))
  }

  lemma {:induction false} NamesRecorded(h: I.History, s: SessionRef, names: seq<Bytes>)
    ensures Recording(h, Unsubscribes(s, names)) == TellNames(h, s.id, names)
    decreases |names|
  {
    hide Split, ValidFilterName, Recording;
    if names == [] {
      NothingRecorded(h);
    } else {
      var n := |names| - 1;
      NamesRecorded(h, s, names[..n]);
      assert Unsubscribes(s, names) == Unsubscribes(s, names[..n]) + [Index(I.Unsubscribe(s, names[n]))];
      RecordingJoin(h, Unsubscribes(s, names[..n]), [Index(I.Unsubscribe(s, names[n]))]);
      OneOpRecorded(TellNames(h, s.id, names[..n]), I.Unsubscribe(s, names[n]));
    }
  }

  lemma LeavingRecorded(h: I.History, st: State, k: ConnRef, graceful: bool)
    requires k < |st.conns|
    ensures Recording(h, PlanLeave(st, k, graceful)) == TellLeaving(h, st, st.conns[k], graceful)
  {
    hide PlanPublish, Recording, Remembered, I.Apply;
    var c := st.conns[k];
    MuteRecordsNothing(h, [Close(k)]);
    if c.session.Some? {
      var op := I.UnsubscribeAll(c.session.value, graceful);
      RecordingJoin(h, [Close(k)], [Index(op)]);
      assert [Close(k)] + [Index(op)] == [Close(k), Index(op)];
      OneOpRecorded(h, op);
      if graceful || c.will.None? {
        assert PlanLeave(st, k, graceful) == [Close(k), Index(op)];
      } else {
        var w := c.will.value;
        RecordingJoin(h, [Close(k), Index(op)], PlanPublish(I.Apply(st.topics, op), w.topic, w.payload, w.qos, w.retain, st.clock));
        PublishRecorded(I.Record(h, op), I.Apply(st.topics, op), w.topic, w.payload, w.qos, w.retain, st.clock);
      }
    }
  }

  lemma ConnectRecorded(h: I.History, st: State, k: ConnRef, id: ClientId, clean: bool, will: Option<Message>)
    ensures Recording(h, PlanConnect(st, k, id, clean, will)) == TellConnect(h, id, clean)
  {
    hide Recording, Ascending;
    var plan := PlanConnect(st, k, id, clean, will);
    assert plan == [Attach(k, id, clean, will)] + plan[1..];
    RecordingJoin(h, [Attach(k, id, clean, will)], plan[1..]);
    AttachRecorded(h, k, id, clean, will);
    MuteRecordsNothing(TellConnect(h, id, clean), plan[1..]);
  }

  lemma AttachRecorded(h: I.History, k: ConnRef, id: ClientId, clean: bool, will: Option<Message>)
    ensures Recording(h, [Attach(k, id, clean, will)]) == TellConnect(h, id, clean)
  {
    var op := I.Begin(id, clean);
    assert [Attach(k, id, clean, will)][..0] == [] && OpsIn([]) == [] && OpsIn([Attach(k, id, clean, will)]) == [op];
    assert [op][..0] == [] && RecordAll(h, []) == h && RecordAll(h, [op]) == I.Record(h, op);
  }

  lemma InboundRecorded(h: I.History, st: State, k: ConnRef, s: SessionRef, topic: Bytes, payload: Bytes, flags: P.PublishFlags, id: PacketId)
    ensures Recording(h, PlanInbound(st, k, s, topic, payload, flags, id))
         == if Duplicate(st, s, flags, id) then h
            else h.(retained := Remembered(h.retained, topic, payload, flags.qos, flags.retain, st.clock))
  {
    hide PlanPublish, Recording, Remembered;
    if Duplicate(st, s, flags, id) {
      MuteRecordsNothing(h, [Send(k, PubRec(id))]);
    } else {
      var head := (if flags.qos == 1 then [Send(k, PubAck(id))]
                   else if flags.qos == 2 then [Hold(s.num, id, topic, payload), Send(k, PubRec(id))]
                   else []) + [Forward(k, id, flags.qos, topic, payload)];
      MuteRecordsNothing(h, head);
      RecordingJoin(h, head, PlanPublish(st.topics, topic, payload, flags.qos, flags.retain, st.clock));
      PublishRecorded(h, st.topics, topic, payload, flags.qos, flags.retain, st.clock);
    }
  }

  lemma PacketRecorded(h: I.History, st: State, s: SessionRef, e: Event)
    requires !e.Accept? && !e.OnTick? && Connected(st, Some(e.conn)) && st.conns[e.conn].session == Some(s)
    ensures Recording(h, PlanPacket(st, s, e)) == Tell(h, st, e)
  {
    hide PlanPublish, PlanFilters, PlanLeave, PlanConnect, PlanInbound, Recording, TellLeaving, TellFilters, TellNames, Remembered, Duplicate, ValidTopicName;
    LeavingRecorded(h, st, e.conn, true);
    LeavingRecorded(h, st, e.conn, false);
    match e {
      case OnConnect(k, id, clean, will) => ConnectRecorded(h, st, k, id, clean, will);
      case OnPublish(k, topic, payload, flags, id) => InboundRecorded(h, st, k, s, topic, payload, flags, id);
      case OnSubscribe(k, id, filters) =>
        FiltersRecorded(h, st.topics, s, filters);
        var ack := Send(k, SubAck(id, seq(|filters|, i requires 0 <= i < |filters| => P.SubackCode(filters[i]))));
        RecordingJoin(h, PlanFilters(st.topics, s, filters), [ack]);
        MuteRecordsNothing(TellFilters(h, s.id, filters), [ack]);
      case OnUnsubscribe(k, id, names) =>
        NamesRecorded(h, s, names);
        RecordingJoin(h, Unsubscribes(s, names), [Send(k, UnsubAck(id))]);
        MuteRecordsNothing(TellNames(h, s.id, names), [Send(k, UnsubAck(id))]);
      case OnPubAck(_, _) => MuteRecordsNothing(h, PlanPacket(st, s, e));
      case OnPubRec(_, _) => MuteRecordsNothing(h, PlanPacket(st, s, e));
      case OnPubRel(_, _) => MuteRecordsNothing(h, PlanPacket(st, s, e));
      case OnPubComp(_, _) => MuteRecordsNothing(h, PlanPacket(st, s, e));
      case OnPingReq(_) => MuteRecordsNothing(h, PlanPacket(st, s, e));
      case _ =>
    }
  }

  lemma EventRecorded(h: I.History, st: State, e: Event)
    ensures Recording(h, Plan(st, e)) == Tell(h, st, e)
  {
    hide PlanPacket, PlanConnect, Recording, Tell;
    if e.Accept? || e.OnTick? || !Connected(st, Some(e.conn)) {
      MuteRecordsNothing(h, Plan(st, e));
      SilentEvent(h, st, e);
    } else {
      match st.conns[e.conn].session {
        case Some(s) => PacketRecorded(h, st, s, e);
        case None =>
          NewcomerTold(h, st, e);
          if e.OnConnect? && e.client != "" {
            ConnectRecorded(h, st, e.conn, e.client, e.clean, e.will);
          } else {
            MuteRecordsNothing(h, [Close(e.conn)]);
          }
      }
    }
  }

  lemma SilentEvent(h: I.History, st: State, e: Event)
    requires e.Accept? || e.OnTick? || !Connected(st, Some(e.conn))
    ensures Tell(h, st, e) == h
  {
  }

  lemma NewcomerTold(h: I.History, st: State, e: Event)
    requires !e.Accept? && !e.OnTick? && Connected(st, Some(e.conn)) && st.conns[e.conn].session.None?
    ensures Tell(h, st, e) == if e.OnConnect? && e.client != "" then TellConnect(h, e.client, e.clean) else h
  {
  }

  /** Over every run, the history that the operations on the index record is the one told from the events. */
  lemma {:induction false} ToldIsRecorded(disk: Disk, events: seq<Event>)
    ensures I.Recorded(AllOps(Initial(disk), events)) == Told(disk, events)
    decreases |events|
  {
    hide Plan, Tell, OpsIn, I.Record;
    if events != [] {
      var n := |events| - 1;
      var mid := Run(Initial(disk), events[..n]);
      ToldIsRecorded(disk, events[..n]);
      RecordedSplit(AllOps(Initial(disk), events[..n]), OpsIn(Plan(mid, events[n])));
      EventRecorded(Told(disk, events[..n]), mid, events[n]);
    }
  }

  // ---------- what a topic retains ----------

  lemma {:induction false} ClockCounts(disk: Disk, events: seq<Event>)
    ensures Run(Initial(disk), events).clock == |events|
  {
    hide Plan, Exec;
    if events != [] {
      ClockCounts(disk, events[..|events| - 1]);
    }
  }

  /** After every run, each path retains what the events say. */
  lemma {:induction false} RetainedIsTold(disk: Disk, events: seq<Event>, p: Path)
    ensures T.RetainedAt(Run(Initial(disk), events).topics, p)
         == if p in Told(disk, events).retained then Some(Told(disk, events).retained[p]) else None
  {
    hide Run, AllOps, I.Recorded, Told, T.RetainedAt;
    RunTopics(disk, events);
    ToldIsRecorded(disk, events);
    I.RetainedStaysInSync(AllOps(Initial(disk), events));
  }

  /** A PUBLISH with RETAIN set that is taken: afterwards its topic retains it, with its payload, its QoS and the
      time of the event, or nothing if it has no payload. */
  lemma {:induction false} PublishRetains(disk: Disk, events: seq<Event>, k: ConnRef, topic: Bytes, payload: Bytes, flags: P.PublishFlags, id: PacketId)
    requires ValidTopicName(topic) && flags.retain && Connected(Run(Initial(disk), events), Some(k))
    requires Run(Initial(disk), events).conns[k].session.Some?
    requires !Duplicate(Run(Initial(disk), events), Run(Initial(disk), events).conns[k].session.value, flags, id)
    ensures T.RetainedAt(Run(Initial(disk), events + [OnPublish(k, topic, payload, flags, id)]).topics, Split(topic))
         == if payload == [] then None else Some(Message(topic, payload, flags.qos, false, |events|))
  {
    hide Run, T.RetainedAt, Duplicate, Split, ValidTopicName;
    var all := events + [OnPublish(k, topic, payload, flags, id)];
    assert all[..|all| - 1] == events;
    RetainedIsTold(disk, all, Split(topic));
    ClockCounts(disk, events);
  }

  /** A will with RETAIN set, when its connection is lost: the same of the will. */
  lemma {:induction false} WillRetains(disk: Disk, events: seq<Event>, k: ConnRef)
    requires Connected(Run(Initial(disk), events), Some(k)) && Run(Initial(disk), events).conns[k].session.Some?
    requires var w := Run(Initial(disk), events).conns[k].will; w.Some? && w.value.retain && ValidTopicName(w.value.topic)
    ensures var w := Run(Initial(disk), events).conns[k].will.value;
            T.RetainedAt(Run(Initial(disk), events + [OnError(k)]).topics, Split(w.topic))
            == if w.payload == [] then None else Some(Message(w.topic, w.payload, w.qos, false, |events|))
  {
    hide Run, T.RetainedAt, Split, ValidTopicName;
    var w := Run(Initial(disk), events).conns[k].will.value;
    var all := events + [OnError(k)];
    assert all[..|all| - 1] == events;
    RetainedIsTold(disk, all, Split(w.topic));
    ClockCounts(disk, events);
  }
}

/** Inbound QoS 2 (section 4.3.3 of MQTT 3.1.1): how often a PUBLISH of one packet identifier on one
    connection is handed on, over every run. */
module InboundOnce {
  import opened Base
  import opened Filters
  import opened Sessions
  import opened Detaching
  import opened Delivery
  import opened BrokerInvariant
  import I = IndexSpec
  import H = Handshake
  import P = Packets
  import Q = TreeQueries
  import S = Sequencer
  import T = TopicTree

  // ---------- the trace of one identifier ----------

  predicate IsPublish(e: Event, k: ConnRef, p: PacketId) {
    e.OnPublish? && e.conn == k && e.flags.qos == 2 && e.id == p
  }

  predicate IsRelease(e: Event, k: ConnRef, p: PacketId) {
    e.OnPubRel? && e.conn == k && e.id == p
  }

  /** After a PUBLISH and before its PUBREL. */
  predicate Pending(events: seq<Event>, k: ConnRef, p: PacketId) {
    events != [] &&
    var e := events[|events| - 1];
    IsPublish(e, k, p) || (!IsRelease(e, k, p) && Pending(events[..|events| - 1], k, p))
  }

  function Publishes(events: seq<Event>, k: ConnRef, p: PacketId): nat {
    if events == [] then 0
    else Publishes(events[..|events| - 1], k, p) + if IsPublish(events[|events| - 1], k, p) then 1 else 0
  }

  /** The PUBLISHes that the code takes for new: all but those marked as duplicates of a pending one. */
  function Taken(events: seq<Event>, k: ConnRef, p: PacketId): nat {
    if events == [] then 0
    else
      var n := |events| - 1;
      Taken(events[..n], k, p)
      + if IsPublish(events[n], k, p) && !(events[n].flags.dup == 1 && Pending(events[..n], k, p)) then 1 else 0
  }

  /** The PUBLISHes that begin a handshake. */
  function Handshakes(events: seq<Event>, k: ConnRef, p: PacketId): nat {
    if events == [] then 0
    else
      var n := |events| - 1;
      Handshakes(events[..n], k, p) + if IsPublish(events[n], k, p) && !Pending(events[..n], k, p) then 1 else 0
  }

  /** The client marks its retransmissions, as section 3.3.1.1 of MQTT 3.1.1 demands. */
  predicate Conforming(events: seq<Event>, k: ConnRef, p: PacketId) {
    events != [] ==>
      var n := |events| - 1;
      Conforming(events[..n], k, p) && (IsPublish(events[n], k, p) && Pending(events[..n], k, p) ==> events[n].flags.dup == 1)
  }

  // ---------- what the broker does, read off its log ----------

  function Forwards(log: seq<LogEntry>, k: ConnRef, p: PacketId): nat {
    if log == [] then 0
    else
      var e := log[|log| - 1];
      Forwards(log[..|log| - 1], k, p) + if e.Forwarded? && e.conn == k && e.id == p && e.qos == 2 then 1 else 0
  }

  function Receipts(log: seq<LogEntry>, k: ConnRef, p: PacketId): nat {
    if log == [] then 0
    else
      var e := log[|log| - 1];
      Receipts(log[..|log| - 1], k, p) + if e.Sent? && e.conn == k && e.packet == PubRec(p) then 1 else 0
  }

  // ---------- the situation, and what leaves it alone ----------

  /** The connection is up, its session is `s`, and the session knows the connection. */
  predicate Up(st: State, k: ConnRef, s: SessionRef) {
    && k < |st.conns| && st.conns[k].connected && st.conns[k].session == Some(s)
    && s.num < |st.sessions| && st.sessions[s.num].client == Some(k)
  }

  predicate Waiting(st: State, s: SessionRef, p: PacketId)
    requires s.num < |st.sessions|
  {
    p in st.sessions[s.num].messages
  }

  /** The run keeps the connection, has no other connection of the same client, and no PUBACK or
      PUBCOMP for the identifier on this one. */
  predicate Allowed(st: State, e: Event, k: ConnRef, p: PacketId)
    requires k < |st.conns|
  {
    if e.Accept? || e.OnTick? then true
    else if e.conn != k then
      (e.conn < |st.conns| ==> st.conns[e.conn].id != st.conns[k].id) && (e.OnConnect? ==> e.client != st.conns[k].id)
    else
      && !e.OnConnect? && !e.OnDisconnect? && !e.OnError?
      && (e.OnPublish? ==> ValidTopicName(e.topic))
      && !((e.OnPubAck? || e.OnPubComp?) && e.id == p)
  }

  predicate Quiet(a: Action, k: ConnRef, s: SessionRef, p: PacketId) {
    match a
    case Send(c, packet) => !(c == k && packet == PubRec(p))
    case Forward(c, id, qos, _, _) => !(c == k && id == p && qos == 2)
    case Index(op) => op.UnsubscribeAll? ==> op.s.id != s.id
    case AckSession(num, id, _, delete, _) => !(num == s.num && id == p && delete)
    case Hold(num, id, _, _) => !(num == s.num && id == p)
    case Attach(c, _, _, _) => c != k
    case Load(num) => num != s.num
    case Close(c) => c != k
    case _ => true
  }

  predicate Same(st: State, st': State, k: ConnRef, s: SessionRef, p: PacketId)
    requires s.num < |st.sessions|
  {
    && Up(st', k, s)
    && (Waiting(st', s, p) <==> Waiting(st, s, p))
    && Forwards(st'.log, k, p) == Forwards(st.log, k, p)
    && Receipts(st'.log, k, p) == Receipts(st.log, k, p)
  }

  lemma {:induction false} EntryBelowIsAt(t: T.Tree, id: ClientId, num: nat) returns (p: Path, i: nat)
    requires T.WellFormed(t) && EntryBelow(t, id, num)
    ensures i < |T.SubsAt(t, p)| && T.SubsAt(t, p)[i].session.id == id && T.SubsAt(t, p)[i].session.num == num
    decreases t
  {
    if j :| 0 <= j < |t.subs| && t.subs[j].session.id == id && t.subs[j].session.num == num {
      p, i := [], j;
    } else {
      var j :| 0 <= j < |t.kids| && EntryBelow(t.kids[j], id, num);
      var q;
      q, i := EntryBelowIsAt(t.kids[j], id, num);
      Q.FindOnly(t.kids, j);
      p := [T.Name(t.kids[j])] + q;
      assert p[1..] == q;
    }
  }

  /** Another client leaving does not detach this session. */
  lemma OthersLeaving(st: State, k: ConnRef, s: SessionRef, op: I.Op)
    requires Inv(st) && Up(st, k, s) && op.UnsubscribeAll? && op.s.id != s.id
    ensures DoIndex(st, op).sessions[s.num] == st.sessions[s.num]
  {
    var kids := st.topics.kids;
    DetachKidsSpares(st.sessions, kids, op.s.id, op.graceful || op.s.clean, op.s.clean, s.num);
    assert ConnOk(st, k);
    if EntryBelow(st.topics, op.s.id, s.num) {
      var p, j := EntryBelowIsAt(st.topics, op.s.id, s.num);
    }
  }

  lemma LogSame(log: seq<LogEntry>, e: LogEntry, k: ConnRef, p: PacketId)
    ensures Forwards(log + [e], k, p) == Forwards(log, k, p) + if e.Forwarded? && e.conn == k && e.id == p && e.qos == 2 then 1 else 0
    ensures Receipts(log + [e], k, p) == Receipts(log, k, p) + if e.Sent? && e.conn == k && e.packet == PubRec(p) then 1 else 0
  {
    assert (log + [e])[..|log|] == log;
  }

  lemma DeliverIsQuiet(st: State, sub: Subscription, topic: Bytes, payload: Bytes, qos: byte, k: ConnRef, s: SessionRef, p: PacketId)
    requires Up(st, k, s)
    ensures Same(st, DoDeliver(st, sub, topic, payload, qos), k, s, p)
  {
    hide Forwards, Receipts, Snapshot, S.IdOfCall;
    var st' := DoDeliver(st, sub, topic, payload, qos);
    if |st'.log| > |st.log| {
      LogSame(st.log, st'.log[|st.log|], k, p);
    }
  }

  lemma RetainedIsQuiet(st: State, sub: Subscription, msg: Message, k: ConnRef, s: SessionRef, p: PacketId)
    requires Up(st, k, s)
    ensures Same(st, DoDeliverRetained(st, sub, msg), k, s, p)
  {
    hide Forwards, Receipts;
    var st' := DoDeliverRetained(st, sub, msg);
    if |st'.log| > |st.log| {
      LogSame(st.log, st'.log[|st.log|], k, p);
    }
  }

  lemma RetryIsQuiet(st: State, n: nat, k: ConnRef, s: SessionRef, p: PacketId)
    requires Up(st, k, s)
    ensures Same(st, DoRetry(st, n), k, s, p)
  {
    hide Forwards, Receipts;
    var st' := DoRetry(st, n);
    if |st'.log| > |st.log| {
      LogSame(st.log, st'.log[|st.log|], k, p);
    }
  }

  lemma ReplayIsQuiet(st: State, c: ConnRef, num: nat, id: PacketId, k: ConnRef, s: SessionRef, p: PacketId)
    requires Up(st, k, s)
    ensures Same(st, DoReplay(st, c, num, id), k, s, p)
  {
    hide Forwards, Receipts;
    var st' := DoReplay(st, c, num, id);
    if |st'.log| > |st.log| {
      LogSame(st.log, st'.log[|st.log|], k, p);
    }
  }

  lemma AckIsQuiet(st: State, a: Action, k: ConnRef, s: SessionRef, p: PacketId)
    requires Up(st, k, s) && Quiet(a, k, s, p) && (a.AckSession? || a.AckStored? || a.Load? || a.Save?)
    ensures Same(st, Do(st, a), k, s, p)
  {
    hide Forwards, Receipts, Saved, WithStatus, Ascending, LoadedMsgs, LoadedMap;
    match a {
      case AckSession(num, id, status, delete, save) => SavedKeepsRest(AckedSession(st, num, id, status, delete), num);
      case Save(num) => SavedKeepsRest(st, num);
      case _ =>
    }
  }

  lemma QuietKeeps(st: State, a: Action, k: ConnRef, s: SessionRef, p: PacketId)
    requires Inv(st) && Up(st, k, s) && Quiet(a, k, s, p)
    ensures Same(st, Do(st, a), k, s, p)
  {
    hide DoDeliver, DoDeliverRetained, DoRetry, DoReplay, DoAckSession, DoAckStored, DoLoad, Saved, Forwards, Receipts, Inv;
    match a {
      case Send(c, packet) => LogSame(st.log, Sent(c, packet, None), k, p);
      case Forward(c, id, qos, topic, payload) => LogSame(st.log, Forwarded(c, id, qos, topic, payload), k, p);
      case Deliver(sub, topic, payload, qos) => DeliverIsQuiet(st, sub, topic, payload, qos, k, s, p);
      case DeliverRetained(sub, msg) => RetainedIsQuiet(st, sub, msg, k, s, p);
      case Index(op) =>
        if op.UnsubscribeAll? {
          OthersLeaving(st, k, s, op);
        }
      case Replay(c, num, id) => ReplayIsQuiet(st, c, num, id, k, s, p);
      case Retry(n) => RetryIsQuiet(st, n, k, s, p);
      case AckStored(_, _, _) => AckIsQuiet(st, a, k, s, p);
      case AckSession(_, _, _, _, _) => AckIsQuiet(st, a, k, s, p);
      case Load(_) => AckIsQuiet(st, a, k, s, p);
      case Save(_) => AckIsQuiet(st, a, k, s, p);
      case _ =>
    }
  }

  predicate AllQuiet(actions: seq<Action>, k: ConnRef, s: SessionRef, p: PacketId) {
    forall i :: 0 <= i < |actions| ==> Quiet(actions[i], k, s, p)
  }

  lemma {:induction false} ExecQuiet(st: State, actions: seq<Action>, k: ConnRef, s: SessionRef, p: PacketId)
    requires Inv(st) && Up(st, k, s) && AllQuiet(actions, k, s, p) && AllOk(st, actions)
    ensures Same(st, Exec(st, actions), k, s, p)
    decreases |actions|
  {
    hide Do, Inv, Forwards, Receipts;
    if actions != [] {
      var n := |actions| - 1;
      ExecQuiet(st, actions[..n], k, s, p);
      ExecKeepsInv(st, actions[..n]);
      QuietKeeps(Exec(st, actions[..n]), actions[n], k, s, p);
    }
  }

  // ---------- events ----------

  lemma PublishIsQuiet(topics: T.Tree, topic: Bytes, payload: Bytes, qos: byte, retain: bool, clock: int, k: ConnRef, s: SessionRef, p: PacketId)
    ensures AllQuiet(PlanPublish(topics, topic, payload, qos, retain, clock), k, s, p)
  {
  }

  lemma {:induction false} RetainedQuiet(found: seq<T.Tree>, sub: Subscription, k: ConnRef, s: SessionRef, p: PacketId)
    ensures AllQuiet(RetainedDeliveries(found, sub), k, s, p)
  {
    if found != [] {
      RetainedQuiet(found[..|found| - 1], sub, k, s, p);
    }
  }

  lemma {:induction false} FiltersQuiet(topics: T.Tree, r: SessionRef, filters: seq<P.FilterQos>, k: ConnRef, s: SessionRef, p: PacketId)
    ensures AllQuiet(PlanFilters(topics, r, filters), k, s, p)
    decreases |filters|
  {
    hide I.Apply, T.Reverse, SortByTime, Split, ValidFilterName, RetainedDeliveries;
    if filters != [] {
      var n := |filters| - 1;
      FiltersQuiet(topics, r, filters[..n], k, s, p);
      var f := filters[n];
      RetainedQuiet(SortByTime(T.Reverse(I.Apply(TopicsAfter(topics, r, filters[..n]), I.Subscribe(r, f.filter, f.qos)), Split(f.filter))),
                    Subscription(r, f.qos), k, s, p);
    }
  }

  lemma LeaveIsQuiet(st: State, c: ConnRef, graceful: bool, k: ConnRef, s: SessionRef, p: PacketId)
    requires c < |st.conns| && c != k
    requires st.conns[c].session.Some? ==> st.conns[c].session.value.id != s.id
    ensures AllQuiet(PlanLeave(st, c, graceful), k, s, p)
  {
    hide PlanPublish;
    if st.conns[c].session.Some? && st.conns[c].will.Some? {
      var w := st.conns[c].will.value;
      PublishIsQuiet(I.Apply(st.topics, I.UnsubscribeAll(st.conns[c].session.value, graceful)), w.topic, w.payload, w.qos, w.retain, st.clock, k, s, p);
    }
  }

  lemma ConnectIsQuiet(st: State, c: ConnRef, id: ClientId, clean: bool, will: Option<Message>, k: ConnRef, s: SessionRef, p: PacketId)
    requires c != k && s.num < |st.sessions|
    ensures AllQuiet(PlanConnect(st, c, id, clean, will), k, s, p)
  {
    hide Ascending;
  }

  /** An inbound PUBLISH, but for the three actions that concern its own identifier. */
  lemma InboundIsQuiet(st: State, c: ConnRef, r: SessionRef, topic: Bytes, payload: Bytes, flags: P.PublishFlags, id: PacketId,
                       k: ConnRef, s: SessionRef, p: PacketId)
    requires !(c == k && flags.qos == 2 && id == p) && (c != k ==> r.num != s.num)
    ensures AllQuiet(PlanInbound(st, c, r, topic, payload, flags, id), k, s, p)
  {
    PublishIsQuiet(st.topics, topic, payload, flags.qos, flags.retain, st.clock, k, s, p);
    hide PlanPublish;
  }

  lemma PacketIsQuiet(st: State, r: SessionRef, e: Event, k: ConnRef, s: SessionRef, p: PacketId)
    requires !e.Accept? && !e.OnTick? && e.conn < |st.conns| && st.conns[e.conn].session == Some(r)
    requires k < |st.conns| && s.num < |st.sessions| && (e.conn == k ==> r == s)
    requires e.conn != k ==> r.num != s.num && r.id != s.id
    requires Allowed(st, e, k, p) && !IsPublish(e, k, p) && !IsRelease(e, k, p)
    ensures AllQuiet(PlanPacket(st, r, e), k, s, p)
  {
    hide PlanPublish, PlanFilters, PlanLeave, PlanConnect, PlanInbound;
    if e.conn != k {
      LeaveIsQuiet(st, e.conn, true, k, s, p);
      LeaveIsQuiet(st, e.conn, false, k, s, p);
    }
    match e {
      case OnConnect(c, id, clean, will) => ConnectIsQuiet(st, c, id, clean, will, k, s, p);
      case OnPublish(c, topic, payload, flags, id) => InboundIsQuiet(st, c, r, topic, payload, flags, id, k, s, p);
      case OnSubscribe(c, id, filters) => FiltersQuiet(st.topics, r, filters, k, s, p);
      case _ =>
    }
  }

  /** Two connections, two sessions; and two clients when the run allows the other's event. */
  lemma OtherSession(st: State, c: ConnRef, k: ConnRef, r: SessionRef, s: SessionRef)
    requires Inv(st) && c < |st.conns| && k < |st.conns| && c != k
    requires st.conns[c].session == Some(r) && st.conns[k].session == Some(s)
    ensures r.num != s.num && (st.conns[c].id != st.conns[k].id ==> r.id != s.id)
  {
    assert ConnOk(st, c) && ConnOk(st, k);
  }

  /** Any other event on this connection, and any allowed event elsewhere, is quiet. */
  lemma PlanIsQuiet(st: State, e: Event, k: ConnRef, s: SessionRef, p: PacketId)
    requires Inv(st) && Up(st, k, s) && Allowed(st, e, k, p)
    requires !IsPublish(e, k, p) && !IsRelease(e, k, p)
    ensures AllQuiet(Plan(st, e), k, s, p)
  {
    hide PlanPacket, PlanConnect, Inv;
    if !e.Accept? && !e.OnTick? && Connected(st, Some(e.conn)) {
      match st.conns[e.conn].session {
        case Some(r) =>
          if e.conn != k {
            OtherSession(st, e.conn, k, r, s);
          }
          PacketIsQuiet(st, r, e, k, s, p);
        case None =>
          if e.OnConnect? {
            ConnectIsQuiet(st, e.conn, e.client, e.clean, e.will, k, s, p);
          }
      }
    }
  }

  /** The PUBLISH itself: always answered with one PUBREC; handed on unless it is a marked duplicate
      of a pending one; pending afterwards. */
  lemma PublishStep(st: State, e: Event, k: ConnRef, s: SessionRef, p: PacketId)
    requires Inv(st) && Up(st, k, s) && IsPublish(e, k, p) && ValidTopicName(e.topic)
    ensures var st' := Step(st, e);
            && Up(st', k, s) && Waiting(st', s, p)
            && Receipts(st'.log, k, p) == Receipts(st.log, k, p) + 1
            && Forwards(st'.log, k, p) == Forwards(st.log, k, p) + if e.flags.dup == 1 && Waiting(st, s, p) then 0 else 1
  {
    hide Forwards, Receipts, PlanPublish, Inv;
    var plan := Plan(st, e);
    if e.flags.dup == 1 && Waiting(st, s, p) {
      assert plan == [Send(k, PubRec(p))];
      assert plan[..0] == [] && Exec(st, []) == st;
      assert Exec(st, plan) == Do(st, plan[0]);
      LogSame(st.log, Sent(k, PubRec(p), None), k, p);
    } else {
      var rest := PlanPublish(st.topics, e.topic, e.payload, 2, e.flags.retain, st.clock);
      var head := [Hold(s.num, p, e.topic, e.payload), Send(k, PubRec(p)), Forward(k, p, 2, e.topic, e.payload)];
      assert plan == head + rest;
      var mid := Exec(st, head);
      ThreeActions(st, head);
      LogSame(st.log, Sent(k, PubRec(p), None), k, p);
      LogSame(st.log + [Sent(k, PubRec(p), None)], Forwarded(k, p, 2, e.topic, e.payload), k, p);
      assert Up(mid, k, s) && Waiting(mid, s, p);
      PlanOk(st, e);
      assert forall i :: 0 <= i < |head| ==> plan[i] == head[i];
      ExecKeepsInv(st, head);
      PublishActionsOk(mid, st.topics, e.topic, e.payload, 2, e.flags.retain, st.clock);
      PublishIsQuiet(st.topics, e.topic, e.payload, 2, e.flags.retain, st.clock, k, s, p);
      ExecQuiet(mid, rest, k, s, p);
      H.ExecSplit(st, plan, 3);
      assert plan[..3] == head && plan[3..] == rest;
    }
  }

  lemma ThreeActions(st: State, a: seq<Action>)
    requires |a| == 3
    ensures Exec(st, a) == Do(Do(Do(st, a[0]), a[1]), a[2])
  {
    hide Do;
    assert a[..2][..1] == a[..1] && a[..1][..0] == [];
    assert a[..2][1] == a[1] && a[..1][0] == a[0];
    assert Exec(st, []) == st;
    assert Exec(st, a[..1]) == Do(st, a[0]);
    assert Exec(st, a[..2]) == Do(Exec(st, a[..1]), a[1]);
  }

  /** The PUBREL ends it. */
  lemma ReleaseStep(st: State, e: Event, k: ConnRef, s: SessionRef, p: PacketId)
    requires Up(st, k, s) && IsRelease(e, k, p)
    ensures var st' := Step(st, e);
            && Up(st', k, s) && !Waiting(st', s, p)
            && Receipts(st'.log, k, p) == Receipts(st.log, k, p)
            && Forwards(st'.log, k, p) == Forwards(st.log, k, p)
  {
    hide Forwards, Receipts, WithStatus;
    var plan := Plan(st, e);
    assert plan == [AckSession(s.num, p, PubrelReceived, true, false), Send(k, PubComp(p))];
    assert plan[..1][..0] == [] && plan[..1][0] == plan[0] && Exec(st, []) == st;
    assert Exec(st, plan[..1]) == Do(st, plan[0]);
    assert Exec(st, plan) == Do(Do(st, plan[0]), plan[1]);
    LogSame(st.log, Sent(k, PubComp(p), None), k, p);
  }

  /** A clean CONNECT brings the situation about. */
  lemma ConnectIsUp(st: State, k: ConnRef, id: ClientId, will: Option<Message>, p: PacketId)
    requires Connected(st, Some(k)) && id != ""
    ensures var s := SessionRef(id, |st.sessions|, true);
            var st' := Step(st, OnConnect(k, id, true, will));
            Up(st', k, s) && !Waiting(st', s, p)
  {
    var plan := PlanConnect(st, k, id, true, will);
    assert plan == [Attach(k, id, true, will), Erase(id), Send(k, ConnAck(false))];
    ThreeActions(st, plan);
  }

  // ---------- runs ----------

  predicate AllowedRun(st: State, events: seq<Event>, k: ConnRef, p: PacketId) {
    events != [] ==>
      var n := |events| - 1;
      AllowedRun(st, events[..n], k, p) && k < |Run(st, events[..n]).conns| && Allowed(Run(st, events[..n]), events[n], k, p)
  }

  /** The exact count, for any client: each PUBLISH is answered, and handed on unless it is a marked
      duplicate of a pending one; the session's store holds the identifier exactly while it is pending. */
  lemma {:induction false} InboundCounts(st: State, events: seq<Event>, k: ConnRef, s: SessionRef, p: PacketId)
    requires Inv(st) && Up(st, k, s) && !Waiting(st, s, p) && AllowedRun(st, events, k, p)
    ensures Up(Run(st, events), k, s)
    ensures Waiting(Run(st, events), s, p) <==> Pending(events, k, p)
    ensures Receipts(Run(st, events).log, k, p) == Receipts(st.log, k, p) + Publishes(events, k, p)
    ensures Forwards(Run(st, events).log, k, p) == Forwards(st.log, k, p) + Taken(events, k, p)
    decreases |events|
  {
    hide Step, Forwards, Receipts, Inv;
    if events != [] {
      var n := |events| - 1;
      var mid, e := Run(st, events[..n]), events[n];
      InboundCounts(st, events[..n], k, s, p);
      RunKeepsInv(st, events[..n]);
      if IsPublish(e, k, p) {
        PublishStep(mid, e, k, s, p);
      } else if IsRelease(e, k, p) {
        ReleaseStep(mid, e, k, s, p);
      } else {
        OtherStep(mid, e, k, s, p);
      }
    }
  }

  lemma OtherStep(st: State, e: Event, k: ConnRef, s: SessionRef, p: PacketId)
    requires Inv(st) && Up(st, k, s) && Allowed(st, e, k, p) && !IsPublish(e, k, p) && !IsRelease(e, k, p)
    ensures Same(st, Step(st, e), k, s, p)
  {
    hide Forwards, Receipts, Inv, Plan;
    PlanIsQuiet(st, e, k, s, p);
    PlanOk(st, e);
    ExecQuiet(st, Plan(st, e), k, s, p);
  }

  /** For a client that marks its retransmissions, what is taken for new is what is new. */
  lemma {:induction false} ConformingTakesHandshakes(events: seq<Event>, k: ConnRef, p: PacketId)
    requires Conforming(events, k, p)
    ensures Taken(events, k, p) == Handshakes(events, k, p)
  {
    if events != [] {
      ConformingTakesHandshakes(events[..|events| - 1], k, p);
    }
  }

  /** Exactly once: over every allowed run of a conforming client, one PUBLISH is handed on per
      handshake, and every PUBLISH gets its PUBREC. */
  lemma {:induction false} ExactlyOnce(st: State, events: seq<Event>, k: ConnRef, s: SessionRef, p: PacketId)
    requires Inv(st) && Up(st, k, s) && !Waiting(st, s, p)
    requires AllowedRun(st, events, k, p) && Conforming(events, k, p)
    ensures Forwards(Run(st, events).log, k, p) == Forwards(st.log, k, p) + Handshakes(events, k, p)
    ensures Receipts(Run(st, events).log, k, p) == Receipts(st.log, k, p) + Publishes(events, k, p)
  {
    InboundCounts(st, events, k, s, p);
    ConformingTakesHandshakes(events, k, p);
  }

  lemma {:induction false} OneHandshake(events: seq<Event>, k: ConnRef, p: PacketId)
    requires forall i :: 0 <= i < |events| ==> !IsRelease(events[i], k, p)
    ensures Handshakes(events, k, p) == if Publishes(events, k, p) > 0 then 1 else 0
    ensures Pending(events, k, p) <==> Publishes(events, k, p) > 0
  {
    if events != [] {
      OneHandshake(events[..|events| - 1], k, p);
    }
  }

  /** However often the client sends the PUBLISH before its PUBREL, it is handed on once. */
  lemma {:induction false} OnceBeforeRelease(st: State, events: seq<Event>, k: ConnRef, s: SessionRef, p: PacketId)
    requires Inv(st) && Up(st, k, s) && !Waiting(st, s, p)
    requires AllowedRun(st, events, k, p) && Conforming(events, k, p)
    requires forall i :: 0 <= i < |events| ==> !IsRelease(events[i], k, p)
    requires Publishes(events, k, p) > 0
    ensures Forwards(Run(st, events).log, k, p) == Forwards(st.log, k, p) + 1
  {
    ExactlyOnce(st, events, k, s, p);
    OneHandshake(events, k, p);
  }
}

/** Every PUBLISH that the broker ever writes can be read: by its own decoder, field by field. */
module Readable {
  import opened Base
  import opened Filters
  import opened Sessions
  import opened Delivery
  import opened Listening
  import B = Broker
  import BI = BrokerInvariant
  import I = IndexSpec
  import IR = IndexInRuns
  import P = Packets
  import Q = TreeQueries
  import S = Sequencer
  import T = TopicTree

  predicate ClientMessageFits(m: ClientMessage) {
    Fits(m.topic, m.payload, m.qos) && m.retain <= 1
  }

  predicate StoredFits(m: Stored) {
    Fits(m.topic, m.payload, m.qos) && m.retain <= 1
  }

  predicate PacketFits(p: Packet) {
    p.Publish? ==> Fits(p.topic, p.payload, p.qos) && p.retain <= 1 && p.dup <= 1 && (p.qos == 0 ==> p.dup == 0)
  }

  predicate MsgsFit(msgs: seq<ClientMessage>) {
    forall m :: 0 <= m < |msgs| ==> ClientMessageFits(msgs[m])
  }

  predicate DiskFits(disk: Disk) {
    forall c, id :: c in disk && id in disk[c] ==> StoredFits(disk[c][id])
  }

  predicate WillsFit(conns: seq<Conn>) {
    forall k :: 0 <= k < |conns| ==> WillFits(conns[k].will)
  }

  ghost predicate RetainedFit(root: T.Tree) {
    forall p: Path :: T.RetainedAt(root, p).Some? ==> MessageFits(T.RetainedAt(root, p).value)
  }

  predicate LogFits(log: seq<LogEntry>) {
    forall j :: 0 <= j < |log| && log[j].Sent? ==> PacketFits(log[j].packet)
  }

  ghost predicate StateFits(st: State) {
    MsgsFit(st.msgs) && DiskFits(st.disk) && WillsFit(st.conns) && RetainedFit(st.topics) && LogFits(st.log)
  }

  predicate ActionFits(a: Action) {
    match a
    case Send(_, packet) => PacketFits(packet)
    case Deliver(_, topic, payload, qos) => Fits(topic, payload, qos)
    case DeliverRetained(_, msg) => MessageFits(msg)
    case Index(op) => op.Retain? && op.msg.Some? ==> MessageFits(op.msg.value)
    case Hold(_, _, topic, payload) => Fits(topic, payload, 2)
    case Attach(_, _, _, will) => WillFits(will)
    case _ => true
  }

  // ---------- what every action keeps ----------

  lemma SmallerQosFits(topic: Bytes, payload: Bytes, qos: byte, q: byte)
    requires Fits(topic, payload, qos) && q <= qos
    ensures Fits(topic, payload, q)
  {
  }

  lemma SnapshotFits(msgs: seq<ClientMessage>, messages: map<PacketId, MsgRef>)
    requires MsgsFit(msgs)
    ensures forall id :: id in Snapshot(msgs, messages) ==> StoredFits(Snapshot(msgs, messages)[id])
  {
    forall id | id in Snapshot(msgs, messages) ensures StoredFits(Snapshot(msgs, messages)[id]) {
      assert ClientMessageFits(msgs[messages[id]]);
    }
  }

  lemma SavedFits(st: State, num: nat)
    requires MsgsFit(st.msgs) && DiskFits(st.disk)
    ensures DiskFits(Saved(st, num).disk) && Saved(st, num) == st.(disk := Saved(st, num).disk)
  {
    hide Snapshot, StoredFits, ClientMessageFits;
    if num < |st.sessions| {
      SnapshotFits(st.msgs, st.sessions[num].messages);
    }
  }

  /** The parts of the state that an action other than Index and Attach can change. */
  predicate RestFits(st: State) {
    MsgsFit(st.msgs) && DiskFits(st.disk) && LogFits(st.log)
  }

  lemma DeliverFits(st: State, sub: Subscription, topic: Bytes, payload: Bytes, qos: byte)
    requires RestFits(st) && Fits(topic, payload, qos)
    ensures RestFits(DoDeliver(st, sub, topic, payload, qos))
  {
    SmallerQosFits(topic, payload, qos, Min(sub.qos, qos));
    hide S.IdOfCall, Saved, Fits;
    var st' := DoDeliver(st, sub, topic, payload, qos);
    if sub.session.num < |st.sessions| {
      var id := S.IdOfCall(st.calls);
      var m := ClientMessage(SessionClient(st, sub.session.num), topic, payload, Min(sub.qos, qos), 0, Unacknowledged, Queued(st.calls));
      var s := st.sessions[sub.session.num];
      if ClientMessageFits(m) {
        SavedFits(st.(calls := st.calls + 1, msgs := st.msgs + [m],
                      sessions := st.sessions[sub.session.num := s.(messages := s.messages[id := |st.msgs|])]),
                  sub.session.num);
      }
    }
  }

  lemma DeliverRetainedFits(st: State, sub: Subscription, msg: Message)
    requires RestFits(st) && MessageFits(msg)
    ensures RestFits(DoDeliverRetained(st, sub, msg))
  {
    SmallerQosFits(msg.topic, msg.payload, msg.qos, Min(sub.qos, msg.qos));
    hide S.IdOfCall, Fits;
  }

  lemma AckFits(st: State, num: nat, id: PacketId, status: AckStatus, delete: bool, save: bool)
    requires RestFits(st)
    ensures RestFits(DoAckStored(st, id, status, delete)) && RestFits(DoAckSession(st, num, id, status, delete, save))
  {
    hide Saved, Fits;
    assert RestFits(AckedSession(st, num, id, status, delete));
    SavedFits(AckedSession(st, num, id, status, delete), num);
  }

  lemma LoadFits(st: State, num: nat)
    requires RestFits(st)
    ensures RestFits(DoLoad(st, num))
  {
    hide Fits, LoadedMap, Ascending;
    if num < |st.sessions| && st.sessions[num].ref.id in st.disk {
      var stored := st.disk[st.sessions[num].ref.id];
      var keys := Ascending(stored.Keys, 0);
      forall i | 0 <= i < |keys| ensures ClientMessageFits(LoadedMsgs(stored, keys)[i]) {
        assert keys[i] in keys && StoredFits(stored[keys[i]]);
      }
    }
  }

  lemma ReplayFits(st: State, k: ConnRef, num: nat, id: PacketId)
    requires RestFits(st)
    ensures RestFits(DoReplay(st, k, num, id))
  {
    hide Fits;
    if num < |st.sessions| && id in st.sessions[num].messages && st.sessions[num].messages[id] < |st.msgs| {
      assert ClientMessageFits(st.msgs[st.sessions[num].messages[id]]);
    }
  }

  lemma RetryFits(st: State, n: nat)
    requires RestFits(st)
    ensures RestFits(DoRetry(st, n))
  {
    BI.RetryKeepsRest(st, n);
    hide Fits;
    if n < |st.retries| && st.retries[n].msg < |st.msgs| {
      assert ClientMessageFits(st.msgs[st.retries[n].msg]);
    }
  }

  lemma RestKept(st: State, a: Action)
    requires RestFits(st) && ActionFits(a)
    ensures RestFits(Do(st, a))
  {
    hide DoDeliver, DoDeliverRetained, DoAckStored, DoAckSession, DoLoad, DoReplay, DoRetry, Saved, Fits;
    match a {
      case Deliver(sub, topic, payload, qos) => DeliverFits(st, sub, topic, payload, qos);
      case DeliverRetained(sub, msg) => DeliverRetainedFits(st, sub, msg);
      case AckStored(id, status, delete) => AckFits(st, 0, id, status, delete, false);
      case AckSession(num, id, status, delete, save) => AckFits(st, num, id, status, delete, save);
      case Load(num) => LoadFits(st, num);
      case Replay(k, num, id) => ReplayFits(st, k, num, id);
      case Retry(n) => RetryFits(st, n);
      case Save(num) => SavedFits(st, num);
      case _ =>
    }
  }

  lemma WillsKept(st: State, a: Action)
    requires WillsFit(st.conns) && ActionFits(a)
    ensures WillsFit(Do(st, a).conns)
  {
    BI.ConnsOfDo(st, a);
    if !(a.Open? || a.Attach? || a.Close?) {
      hide Do;
    }
    hide WillFits;
    assert WillFits(None) by { NoWillFits(); }
  }

  lemma NoWillFits()
    ensures WillFits(None)
  {
  }

  lemma RetainedKept(root: T.Tree, op: I.Op)
    requires I.RootOk(root) && RetainedFit(root)
    requires op.Retain? && op.msg.Some? ==> MessageFits(op.msg.value)
    ensures RetainedFit(I.Apply(root, op))
  {
    hide I.Apply, I.RootOk, T.RetainedAt, MessageFits;
    forall p: Path | T.RetainedAt(I.Apply(root, op), p).Some? ensures MessageFits(T.RetainedAt(I.Apply(root, op), p).value) {
      var was := T.RetainedAt(root, p);
      I.RetainedStep(root, I.History(map[], if was.Some? then map[p := was.value] else map[]), op, p);
    }
  }

  lemma DoKeepsFit(st: State, a: Action)
    requires I.RootOk(st.topics) && StateFits(st) && ActionFits(a)
    ensures StateFits(Do(st, a))
  {
    RestKept(st, a);
    WillsKept(st, a);
    BI.TopicsOfDo(st, a);
    hide Do;
    if a.Index? {
      RetainedKept(st.topics, a.op);
    }
  }

  predicate AllFit(actions: seq<Action>) {
    forall i :: 0 <= i < |actions| ==> ActionFits(actions[i])
  }

  lemma {:induction false} ExecKeepsFit(st: State, actions: seq<Action>)
    requires BI.Inv(st) && BI.AllOk(st, actions) && StateFits(st) && AllFit(actions)
    ensures StateFits(Exec(st, actions))
    decreases |actions|
  {
    hide Do, StateFits, BI.Inv, ActionFits, BI.ActionOk;
    if actions != [] {
      var n := |actions| - 1;
      ExecKeepsFit(st, actions[..n]);
      BI.ExecKeepsInv(st, actions[..n]);
      RootOfInv(Exec(st, actions[..n]));
      DoKeepsFit(Exec(st, actions[..n]), actions[n]);
    }
  }

  lemma RootOfInv(st: State)
    requires BI.Inv(st)
    ensures I.RootOk(st.topics)
  {
  }

  // ---------- the actions of every event ----------

  lemma PublishActionsFit(root: T.Tree, topic: Bytes, payload: Bytes, qos: byte, retain: bool, clock: int)
    requires ValidTopicName(topic) ==> Fits(topic, payload, qos)
    ensures AllFit(PlanPublish(root, topic, payload, qos, retain, clock))
  {
  }

  predicate FoundFit(found: seq<T.Tree>) {
    forall i :: 0 <= i < |found| && found[i].retained.Some? ==> MessageFits(found[i].retained.value)
  }

  lemma {:induction false} RetainedActionsFit(found: seq<T.Tree>, sub: Subscription)
    requires FoundFit(found)
    ensures AllFit(RetainedDeliveries(found, sub))
  {
    hide MessageFits;
    if found != [] {
      RetainedActionsFit(found[..|found| - 1], sub);
    }
  }

  lemma FoundFits(root: T.Tree, filter: Bytes)
    requires I.RootOk(root) && RetainedFit(root) && ValidFilterName(filter)
    ensures FoundFit(SortByTime(T.Reverse(root, Split(filter))))
  {
    I.SplitIsValidPath(filter);
    hide T.Reverse, SortByTime, Split, MessageFits, ValidFilterName, T.WellFormed;
    var list := T.Reverse(root, Split(filter));
    var found := SortByTime(list);
    IR.SortedByTime(list);
    forall i | 0 <= i < |found| && found[i].retained.Some? ensures MessageFits(found[i].retained.value) {
      assert found[i] in multiset(found);
      assert found[i] in list;
      Q.ReverseSound(root, Split(filter), found[i]);
      assert T.RetainedAt(root, Q.Below(root, found[i])) == found[i].retained;
    }
  }

  lemma {:induction false} FilterActionsFit(root: T.Tree, s: SessionRef, filters: seq<P.FilterQos>)
    requires I.RootOk(root) && RetainedFit(root)
    ensures AllFit(PlanFilters(root, s, filters))
    ensures I.RootOk(TopicsAfter(root, s, filters)) && RetainedFit(TopicsAfter(root, s, filters))
    decreases |filters|
  {
    hide I.RootOk, RetainedFit, I.Apply, ValidFilterName, Split, SortByTime, T.Reverse, MessageFits, FoundFit;
    if filters != [] {
      var n := |filters| - 1;
      var f := filters[n];
      FilterActionsFit(root, s, filters[..n]);
      var before := TopicsAfter(root, s, filters[..n]);
      var op := I.Subscribe(s, f.filter, f.qos);
      I.ApplyKeepsRootOk(before, op);
      RetainedKept(before, op);
      if ValidFilterName(f.filter) {
        FoundFits(I.Apply(before, op), f.filter);
        RetainedActionsFit(SortByTime(T.Reverse(I.Apply(before, op), Split(f.filter))), Subscription(s, f.qos));
      }
    }
  }

  lemma LeaveActionsFit(st: State, k: ConnRef, graceful: bool)
    requires k < |st.conns| && WillsFit(st.conns)
    ensures AllFit(PlanLeave(st, k, graceful))
  {
    hide PlanPublish, I.Apply;
    if st.conns[k].session.Some? && st.conns[k].will.Some? {
      var w := st.conns[k].will.value;
      PublishActionsFit(I.Apply(st.topics, I.UnsubscribeAll(st.conns[k].session.value, graceful)),
                        w.topic, w.payload, w.qos, w.retain, st.clock);
    }
  }

  lemma ConnectActionsFit(st: State, k: ConnRef, id: ClientId, clean: bool, will: Option<Message>)
    requires WillFits(will)
    ensures AllFit(PlanConnect(st, k, id, clean, will))
  {
    hide Ascending, WillFits;
  }

  lemma InboundActionsFit(st: State, k: ConnRef, s: SessionRef, topic: Bytes, payload: Bytes, flags: P.PublishFlags, id: PacketId)
    requires Fits(topic, payload, flags.qos)
    ensures AllFit(PlanInbound(st, k, s, topic, payload, flags, id))
  {
    PublishActionsFit(st.topics, topic, payload, flags.qos, flags.retain, st.clock);
    hide PlanPublish, Fits;
  }

  lemma PacketActionsFit(st: State, s: SessionRef, e: Event)
    requires I.RootOk(st.topics) && StateFits(st) && EventFits(e)
    requires !e.Accept? && !e.OnTick? && e.conn < |st.conns|
    ensures AllFit(PlanPacket(st, s, e))
  {
    LeaveActionsFit(st, e.conn, true);
    LeaveActionsFit(st, e.conn, false);
    FilterActionsFit(st.topics, s, if e.OnSubscribe? then e.filters else []);
    hide I.RootOk, StateFits, PlanLeave, PlanInbound, PlanConnect, PlanFilters, Fits, WillFits, ValidTopicName;
    match e {
      case OnConnect(k, id, clean, will) => ConnectActionsFit(st, k, id, clean, will);
      case OnPublish(k, topic, payload, flags, id) =>
        if ValidTopicName(topic) {
          InboundActionsFit(st, k, s, topic, payload, flags, id);
        }
      case _ =>
    }
  }

  lemma PlanFits(st: State, e: Event)
    requires I.RootOk(st.topics) && StateFits(st) && EventFits(e)
    ensures AllFit(Plan(st, e))
  {
    hide PlanPacket, PlanConnect, StateFits, I.RootOk;
    if !e.Accept? && !e.OnTick? && Connected(st, Some(e.conn)) {
      match st.conns[e.conn].session {
        case Some(s) => PacketActionsFit(st, s, e);
        case None =>
          if e.OnConnect? {
            ConnectActionsFit(st, e.conn, e.client, e.clean, e.will);
          }
      }
    }
  }

  lemma {:induction false} RunFits(disk: Disk, events: seq<Event>)
    requires DiskFits(disk) && (forall i :: 0 <= i < |events| ==> EventFits(events[i]))
    ensures StateFits(Run(Initial(disk), events))
  {
    if events == [] {
      assert forall p: Path :: p != [] ==> T.At(T.EMPTY_TREE, p) == None;
    } else {
      hide Plan, Exec, EventFits, BI.Inv, BI.AllOk, AllFit;
      var n := |events| - 1;
      var mid := Run(Initial(disk), events[..n]);
      RunFits(disk, events[..n]);
      BI.InitiallyInv(disk);
      BI.RunKeepsInv(Initial(disk), events[..n]);
      RootOfInv(mid);
      BI.PlanOk(mid, events[n]);
      PlanFits(mid, events[n]);
      ExecKeepsFit(mid, Plan(mid, events[n]));
    }
  }

  /** Over every run: whatever PUBLISH is written, live, retained, queued and replayed, sent again or as a
      will, the broker's own decoder reads it back field by field, and what follows it is left alone. */
  lemma {:induction false} EveryPublishIsReadable(disk: Disk, events: seq<Event>, j: nat, rest: Bytes)
    requires DiskFits(disk) && (forall i :: 0 <= i < |events| ==> EventFits(events[i]))
    requires j < |Run(Initial(disk), events).log|
    requires Run(Initial(disk), events).log[j].Sent? && Run(Initial(disk), events).log[j].packet.Publish?
    ensures var p := Run(Initial(disk), events).log[j].packet;
            P.ParsePublish(B.Wire(p) + rest)
            == (P.Inbound.Publish(p.topic, p.payload, P.PublishFlags(p.dup, p.qos, p.retain == 1), if p.qos > 0 then p.id else 0), rest)
  {
    RunFits(disk, events);
    hide Run;
    var p := Run(Initial(disk), events).log[j].packet;
    assert PacketFits(p);
    P.PublishRoundTrip(p.id, p.topic, p.payload, p.dup, p.qos, p.retain, rest);
  }
}

/** The outbound handshake over whole runs, message object by message object: what is acknowledged is not
    published again, and what is completed is left alone. A CONNECT loads stored messages as new objects;
    `Settled` follows a message through that, by client and packet identifier. */
module Handshake {
  import opened Base
  import opened Sessions
  import opened Delivery
  import opened BrokerInvariant
  import I = IndexSpec
  import S = Sequencer

  predicate Acked(st: State, m: MsgRef) {
    m < |st.msgs| && st.msgs[m].status != Unacknowledged
  }

  predicate IsPublishOf(e: LogEntry, m: MsgRef) {
    e.Sent? && e.packet.Publish? && e.msg == Some(m)
  }

  predicate SameMessage(a: ClientMessage, b: ClientMessage) {
    a.topic == b.topic && a.payload == b.payload && a.qos == b.qos && a.origin == b.origin
  }

  // ---------- what every action respects ----------

  predicate MessagesEvolve(st: State, st': State) {
    |st.msgs| <= |st'.msgs| &&
    forall m :: 0 <= m < |st.msgs| ==> SameMessage(st.msgs[m], st'.msgs[m]) && (Acked(st, m) ==> Acked(st', m))
  }

  /** Entries that are new in the log and publish an old message publish one that was unacknowledged. */
  predicate LogEvolves(st: State, st': State) {
    st.log <= st'.log &&
    forall j, m: MsgRef :: |st.log| <= j < |st'.log| && m < |st.msgs| && IsPublishOf(st'.log[j], m) ==> !Acked(st, m)
  }

  predicate LoopsEvolve(st: State, st': State) {
    |st.retries| <= |st'.retries| &&
    forall n :: 0 <= n < |st.retries| ==>
      st'.retries[n].msg == st.retries[n].msg && st'.retries[n].id == st.retries[n].id
      && (st.retries[n].phase.Stopped? ==> st'.retries[n].phase.Stopped?)
  }

  predicate Evolves(st: State, st': State) {
    MessagesEvolve(st, st') && LogEvolves(st, st') && LoopsEvolve(st, st')
  }

  lemma EvolvesTransitively(a: State, b: State, c: State)
    requires Evolves(a, b) && Evolves(b, c)
    ensures Evolves(a, c)
  {
    forall j, m: MsgRef | |a.log| <= j < |c.log| && m < |a.msgs| && IsPublishOf(c.log[j], m) ensures !Acked(a, m) {
      if j < |b.log| {
        assert b.log[j] == c.log[j];
      }
    }
  }

  lemma RefsGrow(st: State, a: Action)
    ensures MessagesEvolve(st, Do(st, a))
  {
    hide DoIndex, DoDeliver, DoDeliverRetained, DoRetry, DoLoad, Saved, RetryPacket, S.IdOfCall;
    SavedKeepsRest(st, 0);
    match a {
      case DeliverRetained(sub, msg) => MessagesAppended(st, sub, msg);
      case Load(num) => LoadedAppended(st, num);
      case Save(num) => SavedKeepsRest(st, num);
      case Retry(n) => RetryKeepsRest(st, n);
      case Index(op) => IndexKeepsRest(st, op);
      case Deliver(sub, topic, payload, qos) => DeliverMessages(st, sub, topic, payload, qos);
      case AckSession(num, id, status, delete, save) => SavedKeepsRest(AckedSession(st, num, id, status, delete), num);
      case _ =>
    }
  }

  lemma MessagesAppended(st: State, sub: Subscription, msg: Message)
    ensures st.msgs <= DoDeliverRetained(st, sub, msg).msgs
  {
    hide S.IdOfCall;
  }

  lemma LoadedAppended(st: State, num: nat)
    ensures st.msgs <= DoLoad(st, num).msgs
  {
    hide LoadedMap, LoadedMsgs, Ascending;
  }

  lemma IndexKeepsRest(st: State, op: I.Op)
    ensures DoIndex(st, op) == st.(topics := DoIndex(st, op).topics, sessions := DoIndex(st, op).sessions)
  {
  }

  lemma DeliverMessages(st: State, sub: Subscription, topic: Bytes, payload: Bytes, qos: byte)
    ensures st.msgs <= DoDeliver(st, sub, topic, payload, qos).msgs
  {
  }

  lemma LoopsGrow(st: State, a: Action)
    ensures LoopsEvolve(st, Do(st, a))
  {
    hide DoIndex, Saved, RetryPacket, S.IdOfCall;
    SavedKeepsRest(st, 0);
    match a {
      case Save(num) => SavedKeepsRest(st, num);
      case Index(op) => IndexKeepsRest(st, op);
      case Deliver(sub, topic, payload, qos) => DeliverLoops(st, sub, topic, payload, qos);
      case AckSession(num, id, status, delete, save) => SavedKeepsRest(AckedSession(st, num, id, status, delete), num);
      case _ =>
    }
  }

  lemma DeliverLoops(st: State, sub: Subscription, topic: Bytes, payload: Bytes, qos: byte)
    ensures st.retries <= DoDeliver(st, sub, topic, payload, qos).retries
    ensures st.log <= DoDeliver(st, sub, topic, payload, qos).log
    ensures forall j :: |st.log| <= j < |DoDeliver(st, sub, topic, payload, qos).log| ==>
      DoDeliver(st, sub, topic, payload, qos).log[j].Sent? &&
      (DoDeliver(st, sub, topic, payload, qos).log[j].msg.Some? ==> DoDeliver(st, sub, topic, payload, qos).log[j].msg.value >= |st.msgs|)
  {
  }

  lemma LogGrows(st: State, a: Action)
    ensures LogEvolves(st, Do(st, a))
  {
    hide DoIndex, Saved, S.IdOfCall;
    SavedKeepsRest(st, 0);
    match a {
      case Save(num) => SavedKeepsRest(st, num);
      case Index(op) => IndexKeepsRest(st, op);
      case Deliver(sub, topic, payload, qos) => DeliverLoops(st, sub, topic, payload, qos);
      case AckSession(num, id, status, delete, save) => SavedKeepsRest(AckedSession(st, num, id, status, delete), num);
      case _ =>
    }
  }

  lemma {:induction false} ExecEvolves(st: State, actions: seq<Action>)
    ensures Evolves(st, Exec(st, actions))
  {
    if actions != [] {
      var n := |actions| - 1;
      var mid := Exec(st, actions[..n]);
      ExecEvolves(st, actions[..n]);
      RefsGrow(mid, actions[n]);
      LogGrows(mid, actions[n]);
      LoopsGrow(mid, actions[n]);
      EvolvesTransitively(st, mid, Exec(st, actions));
    }
  }

  lemma {:induction false} RunEvolves(st: State, events: seq<Event>)
    ensures Evolves(st, Run(st, events))
  {
    if events != [] {
      var n := |events| - 1;
      var mid := Run(st, events[..n]);
      RunEvolves(st, events[..n]);
      ExecEvolves(mid, Plan(mid, events[n]));
      assert Evolves(mid, Run(st, events));
      EvolvesTransitively(st, mid, Run(st, events));
    }
  }

  /** The status of a message object never returns to Unacknowledged, and once it has been acknowledged in
      any way, no PUBLISH of this object is written again, whatever clients and retry loops do. */
  lemma AcknowledgedIsNotPublishedAgain(st: State, events: seq<Event>, m: MsgRef)
    requires Acked(st, m)
    ensures Acked(Run(st, events), m)
    ensures st.log <= Run(st, events).log
    ensures forall j :: |st.log| <= j < |Run(st, events).log| ==> !IsPublishOf(Run(st, events).log[j], m)
  {
    RunEvolves(st, events);
  }

  /** In particular of the object in the broker's store, from the moment a PUBREC for it is processed. */
  lemma PubRecStopsPublishing(st: State, k: ConnRef, id: PacketId, events: seq<Event>)
    requires StoreOk(st) && Connected(st, Some(k)) && st.conns[k].session.Some? && id in st.store
    ensures var st' := Step(st, OnPubRec(k, id));
            && Acked(st', st.store[id])
            && forall j :: |st'.log| <= j < |Run(st', events).log| ==> !IsPublishOf(Run(st', events).log[j], st.store[id])
  {
    var e := OnPubRec(k, id);
    var plan := Plan(st, e);
    var m := st.store[id];
    assert plan[..1] == [plan[0]];
    var mid := Exec(st, plan[..1]);
    assert plan[..1][..0] == [];
    assert Exec(st, []) == st;
    assert mid == DoAckStored(st, id, PubrecReceived, false);
    assert Acked(mid, m);
    ExecSplit(st, plan, 1);
    ExecEvolves(mid, plan[1..]);
    AcknowledgedIsNotPublishedAgain(Step(st, e), events, m);
  }

  lemma {:induction false} ExecSplit(st: State, actions: seq<Action>, i: nat)
    requires i <= |actions|
    ensures Exec(st, actions) == Exec(Exec(st, actions[..i]), actions[i..])
    decreases |actions|
  {
    hide Do;
    if i == |actions| {
      assert actions[..i] == actions && actions[i..] == [];
    } else {
      var n := |actions| - 1;
      ExecSplit(st, actions[..n], i);
      assert actions[..n][..i] == actions[..i];
      assert actions[i..][..n - i] == actions[..n][i..];
    }
  }

  // ---------- completion ----------

  predicate Done(st: State, m: MsgRef) {
    m < |st.msgs| && (st.msgs[m].status == PubackReceived || st.msgs[m].status == PubcompReceived)
  }

  predicate NotIn(messages: map<PacketId, MsgRef>, m: MsgRef) {
    forall id :: id in messages ==> messages[id] != m
  }

  /** Completed, and in no store through which its status could change again. */
  predicate Final(st: State, m: MsgRef) {
    && Done(st, m)
    && NotIn(st.store, m)
    && forall n :: 0 <= n < |st.sessions| ==> NotIn(st.sessions[n].messages, m)
  }

  lemma FinalUnderDeliver(st: State, sub: Subscription, topic: Bytes, payload: Bytes, qos: byte, msg: Message, m: MsgRef)
    requires Final(st, m)
    ensures Final(DoDeliver(st, sub, topic, payload, qos), m) && Final(DoDeliverRetained(st, sub, msg), m)
  {
    hide S.IdOfCall, Snapshot;
  }

  lemma FinalUnderAck(st: State, num: nat, id: PacketId, status: AckStatus, delete: bool, save: bool, m: MsgRef)
    requires Final(st, m)
    ensures Final(DoAckStored(st, id, status, delete), m) && Final(DoAckSession(st, num, id, status, delete, save), m)
  {
    hide WithStatus, Saved;
    SavedKeepsRest(AckedSession(st, num, id, status, delete), num);
    if num < |st.sessions| {
      assert NotIn(st.sessions[num].messages, m);
    }
  }

  lemma FinalUnderReplay(st: State, k: ConnRef, num: nat, id: PacketId, m: MsgRef)
    requires Final(st, m)
    ensures Final(DoReplay(st, k, num, id), m)
  {
    if num < |st.sessions| {
      assert NotIn(st.sessions[num].messages, m);
    }
  }

  lemma FinalUnderLoad(st: State, num: nat, m: MsgRef)
    requires Final(st, m)
    ensures Final(DoLoad(st, num), m)
  {
    if num < |st.sessions| && st.sessions[num].ref.id in st.disk {
      LoadedFacts(st, num);
      var st' := DoLoad(st, num);
      assert st'.store == st.store;
      hide DoLoad;
      assert st'.msgs[m] == st.msgs[m];
      forall n | 0 <= n < |st'.sessions| ensures NotIn(st'.sessions[n].messages, m) {
        assert NotIn(st.sessions[n].messages, m);
      }
    }
  }

  lemma FinalUnderIndex(st: State, op: I.Op, m: MsgRef)
    requires Final(st, m)
    ensures Final(DoIndex(st, op), m)
  {
    var st' := DoIndex(st, op);
    forall n | 0 <= n < |st'.sessions| ensures NotIn(st'.sessions[n].messages, m) {
      assert NotIn(st.sessions[n].messages, m);
      if op.UnsubscribeAll? {
        DetachKeeps(st.sessions, st.topics.kids, op.s.id, op.graceful || op.s.clean, op.s.clean, n);
      }
    }
  }

  lemma DoKeepsFinal(st: State, a: Action, m: MsgRef)
    requires Final(st, m)
    ensures Final(Do(st, a), m)
  {
    hide DoDeliver, DoDeliverRetained, DoAckStored, DoAckSession, DoLoad, DoReplay, DoIndex, DoRetry, Saved;
    SavedKeepsRest(st, 0);
    match a {
      case Deliver(sub, topic, payload, qos) =>
        FinalUnderDeliver(st, sub, topic, payload, qos, Message([], [], 0, false, 0), m);
      case DeliverRetained(sub, msg) => FinalUnderDeliver(st, sub, [], [], 0, msg, m);
      case AckStored(id, status, delete) => FinalUnderAck(st, 0, id, status, delete, false, m);
      case AckSession(num, id, status, delete, save) => FinalUnderAck(st, num, id, status, delete, save, m);
      case Load(num) => FinalUnderLoad(st, num, m);
      case Replay(k, num, id) => FinalUnderReplay(st, k, num, id, m);
      case Index(op) => FinalUnderIndex(st, op, m);
      case Retry(n) => RetryKeepsRest(st, n);
      case Save(num) => SavedKeepsRest(st, num);
      case _ =>
    }
  }

  lemma {:induction false} ExecKeepsFinal(st: State, actions: seq<Action>, m: MsgRef)
    requires Final(st, m)
    ensures Final(Exec(st, actions), m)
  {
    if actions != [] {
      ExecKeepsFinal(st, actions[..|actions| - 1], m);
      DoKeepsFinal(Exec(st, actions[..|actions| - 1]), actions[|actions| - 1], m);
    }
  }

  lemma {:induction false} RunKeepsFinal(st: State, events: seq<Event>, m: MsgRef)
    requires Final(st, m)
    ensures Final(Run(st, events), m)
  {
    if events != [] {
      var mid := Run(st, events[..|events| - 1]);
      RunKeepsFinal(st, events[..|events| - 1], m);
      ExecKeepsFinal(mid, Plan(mid, events[|events| - 1]), m);
    }
  }

  /** What a PUBACK or PUBCOMP does to the message that is stored under its identifier. */
  predicate Completes(e: Event, id: PacketId) {
    (e.OnPubAck? || e.OnPubComp?) && e.id == id
  }

  /** A message that was sent when Publish or PublishRetained made it is in one store under one
      identifier only, so its acknowledgement is final. */
  lemma CompletionIsFinal(st: State, e: Event, id: PacketId)
    requires Inv(st) && Completes(e, id) && Connected(st, Some(e.conn)) && st.conns[e.conn].session.Some?
    requires id in st.store && st.msgs[st.store[id]].origin.Live?
    ensures Final(Step(st, e), st.store[id])
  {
    var m := st.store[id];
    var plan := Plan(st, e);
    var mid := Exec(st, plan[..1]);
    assert plan[..1] == [plan[0]] && plan[..1][..0] == [] && Exec(st, []) == st;
    assert mid == DoAckStored(st, id, plan[0].status, true);
    forall n | 0 <= n < |st.sessions| ensures NotIn(st.sessions[n].messages, m) {
      assert SessionOk(st, n);
    }
    forall i | i in mid.store ensures mid.store[i] != m {
      assert i in st.store && i != id;
    }
    assert Final(mid, m);
    ExecSplit(st, plan, 1);
    ExecKeepsFinal(mid, plan[1..], m);
  }

  lemma FinalRetryStops(st: State, n: nat, m: MsgRef)
    requires Final(st, m) && n < |st.retries| && st.retries[n].msg == m
    ensures var next := Step(st, OnTick(n));
            next.log == st.log && n < |next.retries| && next.retries[n].phase == Stopped
  {
    assert Plan(st, OnTick(n)) == [Retry(n)];
    assert [Retry(n)][..0] == [] && Exec(st, []) == st;
    assert Exec(st, [Retry(n)]) == DoRetry(st, n);
  }

  /** From then on, through every run, a retry loop of the message writes nothing at its next check
      and returns. */
  lemma RetryStopsAfterCompletion(st: State, e: Event, id: PacketId, events: seq<Event>, n: nat)
    requires Inv(st) && Completes(e, id) && Connected(st, Some(e.conn)) && st.conns[e.conn].session.Some?
    requires id in st.store && st.msgs[st.store[id]].origin.Live?
    requires n < |Run(Step(st, e), events).retries| && Run(Step(st, e), events).retries[n].msg == st.store[id]
    ensures var now := Run(Step(st, e), events);
            var next := Step(now, OnTick(n));
            next.log == now.log && n < |next.retries| && next.retries[n].phase == Stopped
  {
    hide Step, Final;
    CompletionIsFinal(st, e, id);
    RunKeepsFinal(Step(st, e), events, st.store[id]);
    FinalRetryStops(Run(Step(st, e), events), n, st.store[id]);
  }
}

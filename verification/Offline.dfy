/** A persistent client that is away: what Publish queues for it is in the session store until it comes
    back, and is then replayed once, in order. */
module Offline {
  import opened Base
  import opened Filters
  import opened Sessions
  import opened Delivery
  import opened BrokerInvariant
  import opened FanOut
  import I = IndexSpec
  import P = Packets
  import S = Sequencer
  import T = TopicTree

  // ---------- being away ----------

  predicate Detached(st: State, s: SessionRef)
    requires s.num < |st.sessions|
  {
    st.sessions[s.num].client.Some? ==>
      st.sessions[s.num].client.value < |st.conns| && !st.conns[st.sessions[s.num].client.value].connected
  }

  /** All of the client's subscriptions were made in its last connection. */
  ghost predicate OnlyLast(st: State, s: SessionRef) {
    forall p: Path, i :: 0 <= i < |T.SubsAt(st.topics, p)| && T.SubsAt(st.topics, p)[i].session.id == s.id ==>
      T.SubsAt(st.topics, p)[i].session == s
  }

  predicate NoLiveConn(st: State, s: SessionRef) {
    forall k :: 0 <= k < |st.conns| && st.conns[k].connected ==> st.conns[k].id != s.id
  }

  ghost predicate Away(st: State, s: SessionRef) {
    RefOk(st, s) && !s.clean && s.id != "" && Detached(st, s) && OnlyLast(st, s) && NoLiveConn(st, s)
  }

  /** The client does not come back. */
  predicate StaysAway(e: Event, s: SessionRef) {
    e.OnConnect? ==> e.client != s.id
  }

  // ---------- what is queued, and that it is there ----------

  datatype QueuedCopy = QueuedCopy(call: nat, topic: Bytes, payload: Bytes, qos: byte)

  /** A Publish that meets an entry of the session, with a QoS above 0 on both sides. */
  function QueuedBy(st: State, a: Action, s: SessionRef): seq<QueuedCopy> {
    if a.Deliver? && a.sub.session == s && CopyQos(a.sub, a.qos) > 0 then
      [QueuedCopy(st.calls, a.topic, a.payload, CopyQos(a.sub, a.qos))]
    else []
  }

  function QueuedIn(st: State, actions: seq<Action>, s: SessionRef): seq<QueuedCopy> {
    if actions == [] then []
    else
      var n := |actions| - 1;
      QueuedIn(st, actions[..n], s) + QueuedBy(Exec(st, actions[..n]), actions[n], s)
  }

  function QueuedRun(st: State, events: seq<Event>, s: SessionRef): seq<QueuedCopy> {
    if events == [] then []
    else
      var n := |events| - 1;
      QueuedRun(st, events[..n], s) + QueuedIn(Run(st, events[..n]), Plan(Run(st, events[..n]), events[n]), s)
  }

  function IdOf(q: QueuedCopy): PacketId {
    S.IdOfCall(q.call)
  }

  predicate InStoreOnDisk(st: State, s: SessionRef, q: QueuedCopy) {
    && q.qos > 0 && s.id in st.disk && IdOf(q) in st.disk[s.id]
    && st.disk[s.id][IdOf(q)] == Stored(q.topic, q.payload, q.qos, 0, Unacknowledged)
  }

  /** The message object is in the session's store, and nowhere else. */
  predicate InSession(st: State, s: SessionRef, q: QueuedCopy)
    requires s.num < |st.sessions|
  {
    && IdOf(q) in st.sessions[s.num].messages
    && var m := st.sessions[s.num].messages[IdOf(q)];
       && m < |st.msgs|
       && StoredOf(st.msgs[m]) == Stored(q.topic, q.payload, q.qos, 0, Unacknowledged)
       && (forall id :: id in st.store ==> st.store[id] != m)
       && (forall n, id :: 0 <= n < |st.sessions| && n != s.num && id in st.sessions[n].messages ==> st.sessions[n].messages[id] != m)
       && (forall id :: id in st.sessions[s.num].messages && id != IdOf(q) ==> st.sessions[s.num].messages[id] != m)
  }

  predicate Holding(st: State, s: SessionRef, q: QueuedCopy) {
    s.num < |st.sessions| && InSession(st, s, q) && InStoreOnDisk(st, s, q)
  }

  // ---------- actions that leave it alone ----------

  predicate Foreign(st: State, num: nat, s: SessionRef) {
    num < |st.sessions| ==> st.sessions[num].ref.id != s.id
  }

  predicate Harmless(st: State, a: Action, s: SessionRef) {
    match a
    case Deliver(sub, _, _, _) => RefOk(st, sub.session) && (sub.session.id == s.id ==> sub.session == s)
    case Index(op) => op.Subscribe? ==> op.s.id != s.id
    case AckSession(num, _, _, _, _) => Foreign(st, num, s)
    case Hold(num, _, _, _) => Foreign(st, num, s)
    case Attach(_, client, _, _) => client != s.id
    case Erase(client) => client != s.id
    case Load(num) => Foreign(st, num, s)
    case Save(num) => Foreign(st, num, s)
    case Replay(_, num, _) => Foreign(st, num, s)
    case _ => true
  }

  lemma ForeignPersists(st: State, a: Action, s: SessionRef, num: nat)
    requires Harmless(st, a, s) && Foreign(st, num, s)
    ensures Foreign(Do(st, a), num, s)
  {
    SessionsPersist(st, a);
    if num >= |st.sessions| && num < |Do(st, a).sessions| {
      assert a.Attach?;
    }
  }

  lemma HarmlessPersists(st: State, a: Action, b: Action, s: SessionRef)
    requires Harmless(st, a, s) && Harmless(st, b, s)
    ensures Harmless(Do(st, a), b, s)
  {
    hide Do;
    match b {
      case Deliver(sub, _, _, _) => RefPersists(st, a, sub.session);
      case AckSession(num, _, _, _, _) => ForeignPersists(st, a, s, num);
      case Hold(num, _, _, _) => ForeignPersists(st, a, s, num);
      case Load(num) => ForeignPersists(st, a, s, num);
      case Save(num) => ForeignPersists(st, a, s, num);
      case Replay(_, num, _) => ForeignPersists(st, a, s, num);
      case _ =>
    }
  }

  lemma DetachedUnderDeliver(st: State, a: Action, s: SessionRef)
    requires s.num < |st.sessions| && Detached(st, s)
    ensures a.Deliver? ==> var st' := DoDeliver(st, a.sub, a.topic, a.payload, a.qos);
                           s.num < |st'.sessions| && Detached(st', s)
  {
    hide S.IdOfCall, Snapshot;
  }

  lemma DetachedUnderRetained(st: State, a: Action, s: SessionRef)
    requires s.num < |st.sessions| && Detached(st, s)
    ensures a.DeliverRetained? ==> var st' := DoDeliverRetained(st, a.sub, a.msg);
                                   s.num < |st'.sessions| && Detached(st', s)
  {
    hide S.IdOfCall;
  }

  lemma StillDetached(st: State, a: Action, s: SessionRef)
    requires s.num < |st.sessions| && Detached(st, s)
    ensures s.num < |Do(st, a).sessions| && Detached(Do(st, a), s)
  {
    hide S.IdOfCall, I.Apply, Snapshot, RetryPacket, WithStatus, Ascending, LoadedMap, LoadedMsgs, DoDeliver, DoRetry, DoDeliverRetained;
    DetachedUnderDeliver(st, a, s);
    DetachedUnderRetained(st, a, s);
    if a.Retry? {
      RetryKeepsRest(st, a.loop);
    }
    if a.Index? && a.op.UnsubscribeAll? {
      DetachKeeps(st.sessions, st.topics.kids, a.op.s.id, a.op.graceful || a.op.s.clean, a.op.s.clean, s.num);
    }
  }

  lemma StillNoLiveConn(st: State, a: Action, s: SessionRef)
    requires NoLiveConn(st, s) && Harmless(st, a, s) && s.id != ""
    ensures NoLiveConn(Do(st, a), s)
  {
    ConnsOfDo(st, a);
    if !(a.Open? || a.Attach? || a.Close?) {
      hide Do;
    }
  }

  lemma StillOnlyLast(st: State, a: Action, s: SessionRef)
    requires I.RootOk(st.topics) && OnlyLast(st, s) && Harmless(st, a, s)
    ensures OnlyLast(Do(st, a), s)
  {
    var st' := Do(st, a);
    TopicsOfDo(st, a);
    hide Do, T.SubsAt, I.Apply, I.RootOk;
    forall p: Path, i | 0 <= i < |T.SubsAt(st'.topics, p)| && T.SubsAt(st'.topics, p)[i].session.id == s.id
      ensures T.SubsAt(st'.topics, p)[i].session == s
    {
      var x := T.SubsAt(st'.topics, p)[i];
      if a.Index? {
        EntryOrigin(st.topics, a.op, p, x);
      }
      var j :| 0 <= j < |T.SubsAt(st.topics, p)| && T.SubsAt(st.topics, p)[j] == x;
    }
  }

  lemma StillAway(st: State, a: Action, s: SessionRef)
    requires I.RootOk(st.topics) && Away(st, s) && Harmless(st, a, s)
    ensures Away(Do(st, a), s)
  {
    hide Do, Detached, OnlyLast, NoLiveConn, RefOk, I.RootOk;
    SessionNum(st, s);
    RefPersists(st, a, s);
    StillDetached(st, a, s);
    StillNoLiveConn(st, a, s);
    StillOnlyLast(st, a, s);
  }

  lemma SessionNum(st: State, s: SessionRef)
    requires RefOk(st, s)
    ensures s.num < |st.sessions|
  {
  }

  // ---------- what is held stays held ----------

  lemma HeldUnderDeliver(st: State, sub: Subscription, topic: Bytes, payload: Bytes, qos: byte, s: SessionRef, q: QueuedCopy)
    requires StoreOk(st) && SessionsOk(st) && RefOk(st, s) && Holding(st, s, q)
    requires Harmless(st, Deliver(sub, topic, payload, qos), s)
    requires q.call < st.calls && DoDeliver(st, sub, topic, payload, qos).calls <= q.call + S.PERIOD
    ensures Holding(DoDeliver(st, sub, topic, payload, qos), s, q)
  {
    assert SessionOk(st, s.num) && SessionOk(st, sub.session.num);
    assert CopyQos(sub, qos) > 0 ==> S.IdOfCall(st.calls) != IdOf(q) by {
      if CopyQos(sub, qos) > 0 {
        S.FreshWithinPeriod(q.call, st.calls);
      }
    }
    hide S.IdOfCall, SessionsOk, StoreOk, DoDeliver, InStoreOnDisk, InSession;
    InSessionUnderDeliver(st, sub, topic, payload, qos, s, q);
    OnDiskUnderDeliver(st, sub, topic, payload, qos, s, q);
  }

  lemma OnDiskUnderDeliver(st: State, sub: Subscription, topic: Bytes, payload: Bytes, qos: byte, s: SessionRef, q: QueuedCopy)
    requires Holding(st, s, q) && RefOk(st, s) && Harmless(st, Deliver(sub, topic, payload, qos), s)
    requires CopyQos(sub, qos) > 0 ==> S.IdOfCall(st.calls) != IdOf(q)
    ensures InStoreOnDisk(DoDeliver(st, sub, topic, payload, qos), s, q)
  {
    hide S.IdOfCall;
  }

  lemma InSessionUnderDeliver(st: State, sub: Subscription, topic: Bytes, payload: Bytes, qos: byte, s: SessionRef, q: QueuedCopy)
    requires Holding(st, s, q) && SessionOk(st, s.num)
    requires CopyQos(sub, qos) > 0 ==> S.IdOfCall(st.calls) != IdOf(q)
    ensures s.num < |DoDeliver(st, sub, topic, payload, qos).sessions|
    ensures InSession(DoDeliver(st, sub, topic, payload, qos), s, q)
  {
    hide S.IdOfCall, Snapshot, InStoreOnDisk;
  }

  lemma HeldUnderRetained(st: State, sub: Subscription, msg: Message, s: SessionRef, q: QueuedCopy)
    requires s.num < |st.sessions| && Holding(st, s, q)
    ensures Holding(DoDeliverRetained(st, sub, msg), s, q)
  {
    hide S.IdOfCall;
  }

  lemma HeldUnderAckStored(st: State, id: PacketId, status: AckStatus, delete: bool, s: SessionRef, q: QueuedCopy)
    requires Holding(st, s, q)
    ensures Holding(DoAckStored(st, id, status, delete), s, q)
  {
    hide S.IdOfCall, WithStatus;
  }

  lemma HeldUnderSave(st: State, num: nat, s: SessionRef, q: QueuedCopy)
    requires Holding(st, s, q) && Foreign(st, num, s)
    ensures Holding(Saved(st, num), s, q)
  {
    hide S.IdOfCall, Snapshot;
  }

  lemma HeldUnderAckSession(st: State, num: nat, id: PacketId, status: AckStatus, delete: bool, save: bool, s: SessionRef, q: QueuedCopy)
    requires RefOk(st, s) && Holding(st, s, q) && Foreign(st, num, s)
    ensures Holding(DoAckSession(st, num, id, status, delete, save), s, q)
  {
    hide S.IdOfCall, WithStatus, Saved;
    var mid := AckedSession(st, num, id, status, delete);
    assert Holding(mid, s, q);
    HeldUnderSave(mid, num, s, q);
  }

  lemma HeldUnderLoad(st: State, num: nat, s: SessionRef, q: QueuedCopy)
    requires RefOk(st, s) && Holding(st, s, q) && Foreign(st, num, s)
    ensures Holding(DoLoad(st, num), s, q)
  {
    hide DoLoad, S.IdOfCall, StoredOf;
    LoadKeepsRest(st, num);
    if num < |st.sessions| && st.sessions[num].ref.id in st.disk {
      LoadedFacts(st, num);
    }
  }

  lemma LoadKeepsRest(st: State, num: nat)
    ensures DoLoad(st, num) == st.(msgs := DoLoad(st, num).msgs, sessions := DoLoad(st, num).sessions)
    ensures num >= |st.sessions| || st.sessions[num].ref.id !in st.disk ==> DoLoad(st, num) == st
  {
    hide LoadedMsgs, LoadedMap, Ascending;
  }

  lemma HeldUnderReplay(st: State, k: ConnRef, num: nat, id: PacketId, s: SessionRef, q: QueuedCopy)
    requires RefOk(st, s) && Holding(st, s, q) && Foreign(st, num, s)
    ensures Holding(DoReplay(st, k, num, id), s, q)
  {
    hide S.IdOfCall;
  }

  lemma HeldUnderIndex(st: State, op: I.Op, s: SessionRef, q: QueuedCopy)
    requires Holding(st, s, q)
    ensures Holding(DoIndex(st, op), s, q)
  {
    var st' := DoIndex(st, op);
    forall n | 0 <= n < |st.sessions| ensures |st'.sessions| == |st.sessions| && st'.sessions[n].messages == st.sessions[n].messages {
      if op.UnsubscribeAll? {
        DetachKeeps(st.sessions, st.topics.kids, op.s.id, op.graceful || op.s.clean, op.s.clean, n);
      }
    }
    assert st'.store == st.store && st'.disk == st.disk && st'.msgs == st.msgs;
    hide DoIndex, S.IdOfCall;
  }

  lemma StillHolding(st: State, a: Action, s: SessionRef, q: QueuedCopy)
    requires Inv(st) && RefOk(st, s) && Holding(st, s, q) && Harmless(st, a, s)
    requires q.call < st.calls && Do(st, a).calls <= q.call + S.PERIOD
    ensures Holding(Do(st, a), s, q)
  {
    hide DoDeliver, DoDeliverRetained, DoAckStored, DoAckSession, DoLoad, DoReplay, DoIndex, DoRetry, Saved, S.IdOfCall;
    match a {
      case Deliver(sub, topic, payload, qos) => HeldUnderDeliver(st, sub, topic, payload, qos, s, q);
      case DeliverRetained(sub, msg) => HeldUnderRetained(st, sub, msg, s, q);
      case AckStored(id, status, delete) => HeldUnderAckStored(st, id, status, delete, s, q);
      case AckSession(num, id, status, delete, save) => HeldUnderAckSession(st, num, id, status, delete, save, s, q);
      case Load(num) => HeldUnderLoad(st, num, s, q);
      case Replay(k, num, id) => HeldUnderReplay(st, k, num, id, s, q);
      case Index(op) => HeldUnderIndex(st, op, s, q);
      case Save(num) => HeldUnderSave(st, num, s, q);
      case _ => HeldUnderRest(st, a, s, q);
    }
  }

  lemma HeldUnderRest(st: State, a: Action, s: SessionRef, q: QueuedCopy)
    requires Holding(st, s, q) && Harmless(st, a, s) && RefOk(st, s)
    requires a.Send? || a.Forward? || a.Hold? || a.Open? || a.Attach? || a.Erase? || a.Close? || a.Retry?
    ensures Holding(Do(st, a), s, q)
  {
    hide S.IdOfCall, DoRetry;
    if a.Retry? {
      RetryKeepsRest(st, a.loop);
    }
  }

  /** A copy that is queued is held from then on. */
  lemma QueuedIsHeld(st: State, a: Action, s: SessionRef)
    requires StoreOk(st) && SessionsOk(st) && RefOk(st, s) && !s.clean && Detached(st, s)
    requires a.Deliver? && a.sub.session == s && CopyQos(a.sub, a.qos) > 0
    ensures Holding(Do(st, a), s, QueuedCopy(st.calls, a.topic, a.payload, CopyQos(a.sub, a.qos)))
  {
    hide S.IdOfCall;
    var st' := Do(st, a);
    var q := QueuedCopy(st.calls, a.topic, a.payload, CopyQos(a.sub, a.qos));
    assert !Reached(st, s);
    assert st'.sessions[s.num].messages == st.sessions[s.num].messages[IdOf(q) := |st.msgs|];
    assert st'.store == st.store;
    assert StoredOf(st'.msgs[|st.msgs|]) == Stored(q.topic, q.payload, q.qos, 0, Unacknowledged);
    forall n, id | 0 <= n < |st.sessions| && id in st.sessions[n].messages ensures st.sessions[n].messages[id] < |st.msgs| {
      assert SessionOk(st, n);
    }
    forall id | id in st.store ensures st.store[id] < |st.msgs| {
    }
    assert InSession(st', s, q);
  }

  // ---------- actions, events, runs ----------

  predicate AllHarmless(st: State, actions: seq<Action>, s: SessionRef) {
    forall i :: 0 <= i < |actions| ==> Harmless(st, actions[i], s)
  }

  predicate AllHeld(st: State, s: SessionRef, qs: seq<QueuedCopy>) {
    forall i :: 0 <= i < |qs| ==> Holding(st, s, qs[i])
  }

  /** Numbers of calls from `base` on, ascending. */
  predicate Ordered(qs: seq<QueuedCopy>, base: nat, now: nat) {
    && (forall i :: 0 <= i < |qs| ==> base <= qs[i].call < now)
    && forall i, j :: 0 <= i < j < |qs| ==> qs[i].call < qs[j].call
  }

  ghost predicate AwayWith(st: State, s: SessionRef, qs: seq<QueuedCopy>, base: nat) {
    Inv(st) && Away(st, s) && AllHeld(st, s, qs) && Ordered(qs, base, st.calls) && base <= st.calls
  }

  lemma CallsGrow(st: State, a: Action)
    ensures st.calls <= Do(st, a).calls
    ensures a.Deliver? && CopyQos(a.sub, a.qos) > 0 ==> Do(st, a).calls == st.calls + 1
  {
    hide S.IdOfCall, DoIndex, Saved, Snapshot, RetryPacket;
    SavedKeepsRest(st, 0);
    match a {
      case Save(num) => SavedKeepsRest(st, num);
      case AckSession(num, id, status, delete, save) => SavedKeepsRest(AckedSession(st, num, id, status, delete), num);
      case Deliver(sub, topic, payload, qos) => DeliverKeepsWorld(st, sub, topic, payload, qos);
      case Index(op) => IndexKeepsCalls(st, op);
      case _ =>
    }
  }

  lemma IndexKeepsCalls(st: State, op: I.Op)
    ensures DoIndex(st, op).calls == st.calls
  {
  }

  lemma OneAction(st: State, a: Action, s: SessionRef, qs: seq<QueuedCopy>, base: nat)
    requires AwayWith(st, s, qs, base) && Harmless(st, a, s) && ActionOk(st, a)
    requires Do(st, a).calls <= base + S.PERIOD
    ensures AwayWith(Do(st, a), s, qs + QueuedBy(st, a, s), base)
  {
    hide Inv, Away, Holding, Do, S.IdOfCall, Harmless;
    AwayFacts(st, s);
    InvFacts(st);
    DoKeepsInv(st, a);
    StillAway(st, a, s);
    CallsGrow(st, a);
    forall i | 0 <= i < |qs| ensures Holding(Do(st, a), s, qs[i]) {
      StillHolding(st, a, s, qs[i]);
    }
    if QueuedBy(st, a, s) != [] {
      QueuedIsHeld(st, a, s);
    }
  }

  lemma AwayFacts(st: State, s: SessionRef)
    requires Away(st, s)
    ensures RefOk(st, s) && !s.clean && s.num < |st.sessions| && Detached(st, s)
  {
  }

  lemma InvFacts(st: State)
    requires Inv(st)
    ensures I.RootOk(st.topics) && StoreOk(st) && SessionsOk(st)
  {
  }

  lemma {:induction false} ExecCallsGrow(st: State, actions: seq<Action>)
    ensures st.calls <= Exec(st, actions).calls
  {
    if actions != [] {
      hide Do;
      ExecCallsGrow(st, actions[..|actions| - 1]);
      CallsGrow(Exec(st, actions[..|actions| - 1]), actions[|actions| - 1]);
    }
  }

  lemma {:induction false} ExecHarmless(st: State, actions: seq<Action>, b: Action, s: SessionRef)
    requires AllHarmless(st, actions, s) && Harmless(st, b, s)
    ensures Harmless(Exec(st, actions), b, s)
    decreases |actions|
  {
    if actions != [] {
      hide Do, Harmless;
      var n := |actions| - 1;
      ExecHarmless(st, actions[..n], b, s);
      ExecHarmless(st, actions[..n], actions[n], s);
      HarmlessPersists(Exec(st, actions[..n]), actions[n], b, s);
    }
  }

  lemma {:induction false} ExecAway(st: State, actions: seq<Action>, s: SessionRef, qs: seq<QueuedCopy>, base: nat)
    requires AwayWith(st, s, qs, base) && AllHarmless(st, actions, s) && AllOk(st, actions)
    requires Exec(st, actions).calls <= base + S.PERIOD
    ensures AwayWith(Exec(st, actions), s, qs + QueuedIn(st, actions, s), base)
    decreases |actions|
  {
    hide Do, AwayWith, Harmless, QueuedBy, ActionOk;
    if actions == [] {
      assert qs + [] == qs;
    } else {
      var n := |actions| - 1;
      var mid := Exec(st, actions[..n]);
      InvOfAway(st, s, qs, base);
      CallsGrow(mid, actions[n]);
      ExecAway(st, actions[..n], s, qs, base);
      ExecHarmless(st, actions[..n], actions[n], s);
      ExecKeepsInv(st, actions[..n]);
      assert ActionOk(st, actions[n]);
      OneAction(mid, actions[n], s, qs + QueuedIn(st, actions[..n], s), base);
      assert (qs + QueuedIn(st, actions[..n], s)) + QueuedBy(mid, actions[n], s) == qs + QueuedIn(st, actions, s);
    }
  }

  lemma InvOfAway(st: State, s: SessionRef, qs: seq<QueuedCopy>, base: nat)
    requires AwayWith(st, s, qs, base)
    ensures Inv(st) && Away(st, s)
  {
  }

  // ---------- the actions of events, while the client is away ----------

  ghost predicate RootHarmless(st: State, root: T.Tree, s: SessionRef) {
    forall p: Path, i :: 0 <= i < |T.SubsAt(root, p)| ==>
      RefOk(st, T.SubsAt(root, p)[i].session) && (T.SubsAt(root, p)[i].session.id == s.id ==> T.SubsAt(root, p)[i].session == s)
  }

  lemma PublishIsHarmless(st: State, root: T.Tree, topic: Bytes, payload: Bytes, qos: byte, retain: bool, clock: int, s: SessionRef)
    requires I.RootOk(root) && RootHarmless(st, root, s)
    ensures AllHarmless(st, PlanPublish(root, topic, payload, qos, retain, clock), s)
  {
    if ValidTopicName(topic) {
      var matches := T.Match(root, Split(topic));
      var subs := Recipients(matches);
      forall i | 0 <= i < |subs| ensures Harmless(st, Deliver(subs[i], topic, payload, qos), s) {
        var p, h := RecipientIsEntry(root, Split(topic), i);
        assert T.SubsAt(root, p)[h] == subs[i];
      }
    }
  }

  lemma {:induction false} RetainedIsHarmless(st: State, found: seq<T.Tree>, sub: Subscription, s: SessionRef)
    ensures AllHarmless(st, RetainedDeliveries(found, sub), s)
  {
    if found != [] {
      RetainedIsHarmless(st, found[..|found| - 1], sub, s);
    }
  }

  lemma {:induction false} FiltersAreHarmless(st: State, topics: T.Tree, r: SessionRef, filters: seq<P.FilterQos>, s: SessionRef)
    requires r.id != s.id
    ensures AllHarmless(st, PlanFilters(topics, r, filters), s)
    decreases |filters|
  {
    hide I.Apply, T.Reverse, SortByTime, Split, ValidFilterName, RetainedDeliveries;
    if filters != [] {
      var n := |filters| - 1;
      FiltersAreHarmless(st, topics, r, filters[..n], s);
      var f := filters[n];
      RetainedIsHarmless(st, SortByTime(T.Reverse(I.Apply(TopicsAfter(topics, r, filters[..n]), I.Subscribe(r, f.filter, f.qos)), Split(f.filter))),
                         Subscription(r, f.qos), s);
    }
  }

  lemma RootAfterLeaving(st: State, op: I.Op, s: SessionRef)
    requires I.RootOk(st.topics) && EntriesOk(st) && OnlyLast(st, s) && op.UnsubscribeAll?
    ensures RootHarmless(st, st.topics, s) && RootHarmless(st, I.Apply(st.topics, op), s) && I.RootOk(I.Apply(st.topics, op))
  {
    I.ApplyKeepsRootOk(st.topics, op);
    hide I.Apply, T.SubsAt, I.RootOk, RefOk;
    var root := I.Apply(st.topics, op);
    forall p: Path, i | 0 <= i < |T.SubsAt(root, p)|
      ensures RefOk(st, T.SubsAt(root, p)[i].session) && (T.SubsAt(root, p)[i].session.id == s.id ==> T.SubsAt(root, p)[i].session == s)
    {
      var x := T.SubsAt(root, p)[i];
      EntryOrigin(st.topics, op, p, x);
      var j :| 0 <= j < |T.SubsAt(st.topics, p)| && T.SubsAt(st.topics, p)[j] == x;
    }
  }

  lemma LeaveIsHarmless(st: State, k: ConnRef, graceful: bool, s: SessionRef)
    requires Inv(st) && OnlyLast(st, s) && k < |st.conns|
    ensures AllHarmless(st, PlanLeave(st, k, graceful), s)
  {
    var c := st.conns[k];
    if c.session.Some? {
      var op := I.UnsubscribeAll(c.session.value, graceful);
      RootAfterLeaving(st, op, s);
      if c.will.Some? {
        PublishIsHarmless(st, I.Apply(st.topics, op), c.will.value.topic, c.will.value.payload, c.will.value.qos, c.will.value.retain, st.clock, s);
      }
    }
    hide PlanPublish;
  }

  lemma ConnectIsHarmless(st: State, k: ConnRef, id: ClientId, clean: bool, will: Option<Message>, s: SessionRef)
    requires id != s.id
    ensures AllHarmless(st, PlanConnect(st, k, id, clean, will), s)
  {
    hide Ascending;
  }

  lemma PacketIsHarmless(st: State, r: SessionRef, e: Event, s: SessionRef)
    requires Inv(st) && Away(st, s) && StaysAway(e, s)
    requires !e.Accept? && !e.OnTick? && e.conn < |st.conns| && st.conns[e.conn].session == Some(r)
    requires RefOk(st, r) && r.id != s.id
    ensures AllHarmless(st, PlanPacket(st, r, e), s)
  {
    hide PlanPublish, PlanFilters, PlanLeave, PlanConnect, PlanInbound, Inv, ValidTopicName;
    LeaveIsHarmless(st, e.conn, true, s);
    LeaveIsHarmless(st, e.conn, false, s);
    match e {
      case OnConnect(k, id, clean, will) => ConnectIsHarmless(st, k, id, clean, will, s);
      case OnPublish(k, topic, payload, flags, id) => InboundIsHarmless(st, k, r, topic, payload, flags, id, s);
      case OnSubscribe(k, id, filters) => FiltersAreHarmless(st, st.topics, r, filters, s);
      case _ =>
    }
  }

  lemma InboundIsHarmless(st: State, k: ConnRef, r: SessionRef, topic: Bytes, payload: Bytes, flags: P.PublishFlags, id: PacketId, s: SessionRef)
    requires Inv(st) && Away(st, s) && RefOk(st, r) && r.id != s.id
    ensures AllHarmless(st, PlanInbound(st, k, r, topic, payload, flags, id), s)
  {
    hide PlanPublish;
    assert I.RootOk(st.topics) by { InvFacts(st); }
    PublishIsHarmless(st, st.topics, topic, payload, flags.qos, flags.retain, st.clock, s);
    hide Away, Inv;
  }

  lemma PlanIsHarmless(st: State, e: Event, s: SessionRef)
    requires Inv(st) && Away(st, s) && StaysAway(e, s)
    ensures AllHarmless(st, Plan(st, e), s)
  {
    hide PlanPacket, PlanConnect;
    if !e.Accept? && !e.OnTick? && Connected(st, Some(e.conn)) {
      assert ConnOk(st, e.conn);
      match st.conns[e.conn].session {
        case Some(r) => PacketIsHarmless(st, r, e, s);
        case None =>
          if e.OnConnect? {
            ConnectIsHarmless(st, e.conn, e.client, e.clean, e.will, s);
          }
      }
    }
  }

  lemma ClockOfAway(st: State, t: int, s: SessionRef, qs: seq<QueuedCopy>, base: nat)
    requires AwayWith(st, s, qs, base)
    ensures AwayWith(st.(clock := t), s, qs, base)
  {
    ClockIsFree(st, t);
    var st' := st.(clock := t);
    assert forall p: Path :: T.SubsAt(st'.topics, p) == T.SubsAt(st.topics, p);
    hide Inv;
    forall i | 0 <= i < |qs| ensures Holding(st', s, qs[i]) {
      assert Holding(st, s, qs[i]);
    }
  }

  lemma {:induction false} RunCallsGrow(st: State, events: seq<Event>, n: nat)
    requires n < |events|
    ensures Run(st, events[..n]).calls <= Run(st, events[..n + 1]).calls
  {
    assert events[..n + 1][..n] == events[..n];
    ExecCallsGrow(Run(st, events[..n]), Plan(Run(st, events[..n]), events[n]));
  }

  /** Through every run in which the client stays away and the sequencer does not come round, all that
      was held for it and all that is queued for it is held, in its session and in the session store. */
  lemma {:induction false} RunAway(st: State, events: seq<Event>, s: SessionRef, held: seq<QueuedCopy>, base: nat)
    requires AwayWith(st, s, held, base)
    requires forall i :: 0 <= i < |events| ==> StaysAway(events[i], s)
    requires Run(st, events).calls <= base + S.PERIOD
    ensures AwayWith(Run(st, events), s, held + QueuedRun(st, events, s), base)
    decreases |events|
  {
    hide AwayWith, StaysAway, Exec, Plan;
    if events == [] {
      assert held + [] == held;
    } else {
      var n := |events| - 1;
      var mid := Run(st, events[..n]);
      assert events[..n + 1] == events;
      RunCallsGrow(st, events, n);
      RunAway(st, events[..n], s, held, base);
      StepAway(mid, events[n], s, held + QueuedRun(st, events[..n], s), base);
      assert (held + QueuedRun(st, events[..n], s)) + QueuedIn(mid, Plan(mid, events[n]), s) == held + QueuedRun(st, events, s);
    }
  }

  lemma StepAway(st: State, e: Event, s: SessionRef, qs: seq<QueuedCopy>, base: nat)
    requires AwayWith(st, s, qs, base) && StaysAway(e, s) && Step(st, e).calls <= base + S.PERIOD
    ensures AwayWith(Step(st, e), s, qs + QueuedIn(st, Plan(st, e), s), base)
  {
    InvOfAway(st, s, qs, base);
    hide AwayWith, Away, Inv, Plan, Exec;
    PlanIsHarmless(st, e, s);
    PlanOk(st, e);
    ExecAway(st, Plan(st, e), s, qs, base);
    ClockOfAway(Exec(st, Plan(st, e)), st.clock + 1, s, qs + QueuedIn(st, Plan(st, e), s), base);
  }
}

/** Which message objects hang where: no two places of the sessions' stores share one, a retry loop of a
    message that a session holds has the session's identifier for it, and whatever connection a message
    or a session points to has made its CONNECT. */
module Wiring {
  import opened Base
  import opened Sessions
  import opened Delivery
  import opened BrokerInvariant
  import F = Filters
  import FO = FanOut
  import H = Handshake
  import I = IndexSpec
  import P = Packets
  import R = Replay
  import S = Sequencer
  import T = TopicTree

  predicate Joined(st: State, k: Option<ConnRef>) {
    k.Some? ==> k.value < |st.conns| && st.conns[k.value].session.Some?
  }

  predicate ClientsOk(st: State) {
    && (forall m :: 0 <= m < |st.msgs| ==> Joined(st, st.msgs[m].client))
    && (forall n :: 0 <= n < |st.sessions| ==> Joined(st, st.sessions[n].client))
  }

  predicate LoopsInRange(st: State) {
    forall l :: 0 <= l < |st.retries| ==> st.retries[l].msg < |st.msgs|
  }

  /** Session `n` holds message `m` under identifier `i`. */
  predicate HoldsAt(st: State, n: nat, i: PacketId, m: MsgRef) {
    n < |st.sessions| && i in st.sessions[n].messages && st.sessions[n].messages[i] == m
  }

  ghost predicate HeldOnce(st: State) {
    forall n, i, h, j, m :: HoldsAt(st, n, i, m) && HoldsAt(st, h, j, m) ==> n == h && i == j
  }

  ghost predicate LoopsAgree(st: State) {
    forall l, n, i :: 0 <= l < |st.retries| && HoldsAt(st, n, i, st.retries[l].msg) ==> st.retries[l].id == i
  }

  ghost predicate Wired(st: State) {
    Inv(st) && ClientsOk(st) && LoopsInRange(st) && HeldOnce(st) && LoopsAgree(st)
  }

  lemma InitiallyWired(disk: Disk)
    ensures Wired(Initial(disk))
  {
    InitiallyInv(disk);
    hide Inv;
  }

  // ---------- what an action adds ----------

  /** The session whose store an action can put a new message object into. */
  function Receiver(a: Action): nat {
    match a
    case Deliver(sub, _, _, _) => sub.session.num
    case Hold(num, _, _, _) => num
    case Load(num) => num
    case _ => 0
  }

  predicate NewAt(st: State, a: Action, n: nat, i: PacketId, m: MsgRef) {
    n == Receiver(a) && |st.msgs| <= m
    && match a
       case Deliver(_, _, _, _) => i == S.IdOfCall(st.calls)
       case Hold(_, id, _, _) => i == id
       case Load(_) => true
       case _ => false
  }

  lemma LoadedMessages(st: State, num: nat)
    requires num < |st.sessions| && st.sessions[num].ref.id in st.disk
    ensures num < |DoLoad(st, num).sessions|
    ensures DoLoad(st, num).sessions[num].messages
         == LoadedMap(|st.msgs|, Ascending(st.disk[st.sessions[num].ref.id].Keys, 0))
  {
    hide Ascending, LoadedMap, LoadedMsgs;
  }

  lemma LoadedOnce(st: State, num: nat, i: PacketId, j: PacketId)
    requires num < |st.sessions| && st.sessions[num].ref.id in st.disk && num < |DoLoad(st, num).sessions|
    requires var messages := DoLoad(st, num).sessions[num].messages;
             i in messages && j in messages && messages[i] == messages[j]
    ensures i == j
  {
    hide Ascending, LoadedMap, DoLoad;
    LoadedMessages(st, num);
    var keys := Ascending(st.disk[st.sessions[num].ref.id].Keys, 0);
    R.AscendingIsSorted(st.disk[st.sessions[num].ref.id].Keys, 0);
    var h := LoadedFrom(|st.msgs|, keys, i);
    var g := LoadedFrom(|st.msgs|, keys, j);
  }

  lemma {:induction false} LoadedFrom(base: nat, keys: seq<PacketId>, id: PacketId) returns (h: nat)
    requires id in LoadedMap(base, keys)
    ensures h < |keys| && keys[h] == id && LoadedMap(base, keys)[id] == base + h
  {
    h := |keys| - 1;
    if keys[h] != id {
      h := LoadedFrom(base, keys[..h], id);
    }
  }

  /** What a session holds after an action it held before, or it is a new object that the action put there. */
  lemma HeldAfter(st: State, a: Action, n: nat, i: PacketId, m: MsgRef)
    requires HoldsAt(Do(st, a), n, i, m)
    ensures HoldsAt(st, n, i, m) || NewAt(st, a, n, i, m)
  {
    hide S.IdOfCall, DoDeliver, DoDeliverRetained, DoAckSession, DoAckStored, DoLoad, DoReplay, DoRetry, DoIndex, Saved;
    match a {
      case Deliver(sub, topic, payload, qos) => HeldAfterDeliver(st, a, n, i, m);
      case DeliverRetained(sub, msg) => RetainedKeepsSessions(st, sub, msg);
      case Index(op) =>
        if op.UnsubscribeAll? && n < |st.sessions| {
          DetachKeeps(st.sessions, st.topics.kids, op.s.id, op.graceful || op.s.clean, op.s.clean, n);
        }
        IndexedSessions(st, op);
      case AckStored(id, status, delete) => StoredAckKeepsSessions(st, id, status, delete);
      case AckSession(num, id, status, delete, save) =>
        SavedKeepsRest(AckedSession(st, num, id, status, delete), num);
        AckedSessions(st, num, id, status, delete, save);
      case Load(num) =>
        if num < |st.sessions| && st.sessions[num].ref.id in st.disk {
          LoadedFacts(st, num);
        } else {
          LoadedNothing(st, num);
        }
      case Save(num) => SavedKeepsRest(st, num);
      case Replay(k, num, id) => ReplayKeepsSessions(st, k, num, id);
      case Retry(l) => RetryKeepsRest(st, l);
      case _ =>
    }
  }

  lemma HeldAfterDeliver(st: State, a: Action, n: nat, i: PacketId, m: MsgRef)
    requires a.Deliver? && HoldsAt(DoDeliver(st, a.sub, a.topic, a.payload, a.qos), n, i, m)
    ensures HoldsAt(st, n, i, m) || NewAt(st, a, n, i, m)
  {
    hide S.IdOfCall, Snapshot;
  }

  lemma RetainedKeepsSessions(st: State, sub: Subscription, msg: Message)
    ensures DoDeliverRetained(st, sub, msg).sessions == st.sessions
  {
    hide S.IdOfCall;
  }

  lemma IndexedSessions(st: State, op: I.Op)
    ensures DoIndex(st, op).sessions == if op.UnsubscribeAll? then DoIndex(st, op).sessions else st.sessions
    ensures |DoIndex(st, op).sessions| == |st.sessions|
    ensures forall n :: 0 <= n < |st.sessions| ==>
      DoIndex(st, op).sessions[n] == st.sessions[n] || DoIndex(st, op).sessions[n] == st.sessions[n].(client := None)
  {
    if op.UnsubscribeAll? {
      forall n | 0 <= n < |st.sessions|
        ensures DoIndex(st, op).sessions[n] == st.sessions[n] || DoIndex(st, op).sessions[n] == st.sessions[n].(client := None)
      {
        DetachKeeps(st.sessions, st.topics.kids, op.s.id, op.graceful || op.s.clean, op.s.clean, n);
      }
    }
  }

  lemma StoredAckKeepsSessions(st: State, id: PacketId, status: AckStatus, delete: bool)
    ensures DoAckStored(st, id, status, delete).sessions == st.sessions
  {
  }

  lemma AckedSessions(st: State, num: nat, id: PacketId, status: AckStatus, delete: bool, save: bool)
    ensures DoAckSession(st, num, id, status, delete, save).sessions == AckedSession(st, num, id, status, delete).sessions
  {
    hide WithStatus, Snapshot;
  }

  lemma LoadedNothing(st: State, num: nat)
    requires num >= |st.sessions| || st.sessions[num].ref.id !in st.disk
    ensures DoLoad(st, num) == st
  {
  }

  lemma ReplayKeepsSessions(st: State, k: ConnRef, num: nat, id: PacketId)
    ensures DoReplay(st, k, num, id).sessions == st.sessions
  {
  }

  lemma OneNew(st: State, a: Action, n: nat, i: PacketId, j: PacketId, m: MsgRef)
    requires SessionsOk(st) && HoldsAt(Do(st, a), n, i, m) && HoldsAt(Do(st, a), n, j, m)
    requires NewAt(st, a, n, i, m) && NewAt(st, a, n, j, m)
    ensures i == j
  {
    hide S.IdOfCall, DoDeliver, Ascending, LoadedMap, LoadedMsgs;
    if a.Load? && i != j {
      if n < |st.sessions| && st.sessions[n].ref.id in st.disk {
        LoadedOnce(st, n, i, j);
      } else {
        LoadedNothing(st, n);
        HeldBelow(st, n, i, m);
      }
    }
  }

  lemma HeldBelow(st: State, n: nat, i: PacketId, m: MsgRef)
    requires SessionsOk(st) && HoldsAt(st, n, i, m)
    ensures m < |st.msgs|
  {
    assert SessionOk(st, n);
  }

  lemma HeldOnceKept(st: State, a: Action)
    requires SessionsOk(st) && HeldOnce(st)
    ensures HeldOnce(Do(st, a))
  {
    var st' := Do(st, a);
    hide Do, HoldsAt, NewAt;
    forall n, i, h, j, m | HoldsAt(st', n, i, m) && HoldsAt(st', h, j, m) ensures n == h && i == j {
      HeldAfter(st, a, n, i, m);
      HeldAfter(st, a, h, j, m);
      if HoldsAt(st, n, i, m) {
        HeldBelow(st, n, i, m);
        NewIsAbove(st, a, h, j, m);
      } else if HoldsAt(st, h, j, m) {
        HeldBelow(st, h, j, m);
        NewIsAbove(st, a, n, i, m);
      } else {
        NewIsAbove(st, a, n, i, m);
        NewIsAbove(st, a, h, j, m);
        OneNew(st, a, n, i, j, m);
      }
    }
  }

  lemma NewIsAbove(st: State, a: Action, n: nat, i: PacketId, m: MsgRef)
    ensures NewAt(st, a, n, i, m) ==> |st.msgs| <= m && n == Receiver(a)
  {
  }

  // ---------- retry loops ----------

  /** A retry loop after an action was there before, or is that of a message made by it, or of a replayed one. */
  predicate LoopOrigin(st: State, a: Action, loop: RetryLoop) {
    || (exists l :: 0 <= l < |st.retries| && st.retries[l].id == loop.id && st.retries[l].msg == loop.msg)
    || (loop.msg == |st.msgs| && |st.msgs| < |Do(st, a).msgs| && Do(st, a).sessions == st.sessions)
    || (a.Replay? && a.id == loop.id && HoldsAt(st, a.num, a.id, loop.msg) && loop.msg < |st.msgs|)
  }

  lemma NewLoop(st: State, a: Action, l: nat)
    requires |st.retries| <= l < |Do(st, a).retries|
    ensures var loop := Do(st, a).retries[l];
            || (loop.msg == |st.msgs| && |st.msgs| < |Do(st, a).msgs| && Do(st, a).sessions == st.sessions)
            || (a.Replay? && a.id == loop.id && HoldsAt(st, a.num, a.id, loop.msg) && loop.msg < |st.msgs|)
  {
    hide S.IdOfCall, DoIndex, Saved, Snapshot, RetryPacket, WithStatus, DoDeliver, LoadedMap, LoadedMsgs, Ascending, DoRetry;
    match a {
      case Save(num) => SavedKeepsRest(st, num);
      case Index(op) => H.IndexKeepsRest(st, op);
      case Deliver(sub, topic, payload, qos) => DeliverLoop(st, sub, topic, payload, qos);
      case AckSession(num, id, status, delete, save) => SavedKeepsRest(AckedSession(st, num, id, status, delete), num);
      case Retry(n) => RetriesAsMany(st, n);
      case _ =>
    }
  }

  lemma RetriesAsMany(st: State, n: nat)
    ensures |DoRetry(st, n).retries| == |st.retries|
  {
    hide RetryPacket;
  }

  lemma LoopAfter(st: State, a: Action, l: nat)
    requires l < |Do(st, a).retries|
    ensures LoopOrigin(st, a, Do(st, a).retries[l])
  {
    H.LoopsGrow(st, a);
    if l >= |st.retries| {
      NewLoop(st, a, l);
    }
    hide Do, HoldsAt;
  }

  lemma DeliverLoop(st: State, sub: Subscription, topic: Bytes, payload: Bytes, qos: byte)
    ensures var st' := DoDeliver(st, sub, topic, payload, qos);
            st'.retries == st.retries
            || (st'.retries == st.retries + [RetryLoop(S.IdOfCall(st.calls), |st.msgs|, Early)]
                && st'.sessions == st.sessions && |st.msgs| < |st'.msgs|)
  {
    hide S.IdOfCall, Snapshot;
  }

  lemma LoopsKept(st: State, a: Action)
    requires SessionsOk(st) && LoopsInRange(st) && HeldOnce(st) && LoopsAgree(st) && |st.msgs| <= |Do(st, a).msgs|
    ensures LoopsInRange(Do(st, a)) && LoopsAgree(Do(st, a))
  {
    var st' := Do(st, a);
    forall l | 0 <= l < |st'.retries| ensures LoopOrigin(st, a, st'.retries[l]) {
      LoopAfter(st, a, l);
    }
    hide Do, HoldsAt, NewAt;
    forall l, n, i | 0 <= l < |st'.retries| && HoldsAt(st', n, i, st'.retries[l].msg) ensures st'.retries[l].id == i {
      var m := st'.retries[l].msg;
      HeldAfter(st, a, n, i, m);
      NewIsAbove(st, a, n, i, m);
      if HoldsAt(st, n, i, m) {
        HeldBelow(st, n, i, m);
      } else {
        SameSessions(st, a, n, i, m);
      }
    }
  }

  lemma SameSessions(st: State, a: Action, n: nat, i: PacketId, m: MsgRef)
    requires HoldsAt(Do(st, a), n, i, m) && Do(st, a).sessions == st.sessions
    ensures HoldsAt(st, n, i, m)
  {
  }

  // ---------- clients ----------

  lemma JoinedKept(st: State, a: Action, k: Option<ConnRef>)
    requires Joined(st, k)
    ensures Joined(Do(st, a), k)
  {
    ConnsOfDo(st, a);
    if !(a.Open? || a.Attach? || a.Close?) {
      hide Do;
    }
  }

  /** Replaying is done on a connection that has made its CONNECT. */
  predicate WireOk(st: State, a: Action) {
    ActionOk(st, a) && (a.Replay? ==> Joined(st, Some(a.conn)))
  }

  lemma ClientsOfDeliver(st: State, a: Action, m: MsgRef)
    requires ClientsOk(st)
    ensures a.Deliver? ==>
      var st' := DoDeliver(st, a.sub, a.topic, a.payload, a.qos);
      && st'.conns == st.conns && |st'.sessions| == |st.sessions|
      && (forall n :: 0 <= n < |st.sessions| ==> st'.sessions[n].client == st.sessions[n].client)
      && (m < |st'.msgs| ==> Joined(st, st'.msgs[m].client))
    ensures a.DeliverRetained? ==>
      var st' := DoDeliverRetained(st, a.sub, a.msg);
      st'.conns == st.conns && st'.sessions == st.sessions && (m < |st'.msgs| ==> Joined(st, st'.msgs[m].client))
  {
    hide S.IdOfCall, Snapshot;
  }

  lemma ClientOfMessage(st: State, a: Action, m: MsgRef)
    requires ClientsOk(st) && WireOk(st, a) && m < |Do(st, a).msgs|
    ensures Joined(st, Do(st, a).msgs[m].client)
  {
    hide S.IdOfCall, DoDeliver, DoDeliverRetained, Saved, DoIndex, RetryPacket, Ascending, LoadedMap, ActionOk;
    ClientsOfDeliver(st, a, m);
    match a {
      case Save(num) => SavedKeepsRest(st, num);
      case Index(op) => H.IndexKeepsRest(st, op);
      case AckSession(num, id, status, delete, save) => SavedKeepsRest(AckedSession(st, num, id, status, delete), num);
      case Retry(l) => RetryKeepsRest(st, l);
      case _ =>
    }
  }

  /** A session object keeps its connection or loses it. */
  lemma ClientOrNone(st: State, a: Action, n: nat)
    requires n < |st.sessions|
    ensures n < |Do(st, a).sessions|
    ensures Do(st, a).sessions[n].client == st.sessions[n].client || Do(st, a).sessions[n].client == None
  {
    hide S.IdOfCall, DoDeliver, DoDeliverRetained, Saved, DoIndex, DoRetry, DoReplay, Ascending, LoadedMap, LoadedMsgs, WithStatus;
    match a {
      case Deliver(sub, topic, payload, qos) => FO.DeliverKeepsWorld(st, sub, topic, payload, qos);
      case DeliverRetained(sub, msg) => RetainedKeepsSessions(st, sub, msg);
      case Save(num) => SavedKeepsRest(st, num);
      case Index(op) => IndexedSessions(st, op);
      case AckSession(num, id, status, delete, save) => AckedSessions(st, num, id, status, delete, save);
      case Replay(k, num, id) => ReplayKeepsSessions(st, k, num, id);
      case Retry(l) => RetryKeepsRest(st, l);
      case _ =>
    }
  }

  lemma NewSession(st: State, a: Action, n: nat)
    requires |st.sessions| <= n < |Do(st, a).sessions|
    ensures Joined(Do(st, a), Do(st, a).sessions[n].client)
  {
    if !a.Attach? {
      AsManySessions(st, a);
    }
  }

  lemma ClientOfSession(st: State, a: Action, n: nat)
    requires ClientsOk(st) && n < |Do(st, a).sessions|
    ensures Joined(Do(st, a), Do(st, a).sessions[n].client)
  {
    hide Do;
    if n < |st.sessions| {
      ClientOrNone(st, a, n);
      JoinedKept(st, a, st.sessions[n].client);
    } else {
      NewSession(st, a, n);
    }
  }

  lemma ClientsKept(st: State, a: Action)
    requires ClientsOk(st) && WireOk(st, a)
    ensures ClientsOk(Do(st, a))
  {
    var st' := Do(st, a);
    hide Do, Joined, WireOk;
    forall m | 0 <= m < |st'.msgs| ensures Joined(st', st'.msgs[m].client) {
      ClientOfMessage(st, a, m);
      JoinedKept(st, a, st'.msgs[m].client);
    }
    forall n | 0 <= n < |st'.sessions| ensures Joined(st', st'.sessions[n].client) {
      ClientOfSession(st, a, n);
    }
  }

  // ---------- actions, events, runs ----------

  lemma DoKeepsWired(st: State, a: Action)
    requires Wired(st) && WireOk(st, a)
    ensures Wired(Do(st, a))
  {
    hide Do, ClientsOk, LoopsInRange, HeldOnce, LoopsAgree, Inv, StoreOk, EntriesOk, ConnsOk, SessionsOk;
    SessionsOf(st);
    DoKeepsInv(st, a);
    ClientsKept(st, a);
    HeldOnceKept(st, a);
    H.RefsGrow(st, a);
    LoopsKept(st, a);
  }

  lemma SessionsOf(st: State)
    requires Inv(st)
    ensures SessionsOk(st)
  {
  }

  lemma AsManySessions(st: State, a: Action)
    requires !a.Attach?
    ensures |Do(st, a).sessions| == |st.sessions|
  {
    hide S.IdOfCall, DoIndex, DoDeliver, DoDeliverRetained, DoRetry, DoReplay, Saved, WithStatus, LoadedMap, LoadedMsgs, Ascending;
    match a {
      case Deliver(sub, topic, payload, qos) => FO.DeliverKeepsWorld(st, sub, topic, payload, qos);
      case DeliverRetained(sub, msg) => RetainedKeepsSessions(st, sub, msg);
      case Save(num) => SavedKeepsRest(st, num);
      case Index(op) => IndexedSessions(st, op);
      case AckSession(num, id, status, delete, save) => AckedSessions(st, num, id, status, delete, save);
      case Replay(k, num, id) => ReplayKeepsSessions(st, k, num, id);
      case Retry(n) => RetryKeepsRest(st, n);
      case _ =>
    }
  }

  predicate Plain(a: Action) {
    !a.Attach? && !a.Replay?
  }

  predicate AllPlain(actions: seq<Action>) {
    forall i :: 0 <= i < |actions| ==> Plain(actions[i])
  }

  predicate IsConnectOf(e: Event, c: ClientId) {
    e.OnConnect? && e.client == c
  }

  predicate Connects(st: State, e: Event) {
    && e.OnConnect? && e.client != "" && Connected(st, Some(e.conn))
    && Plan(st, e) == PlanConnect(st, e.conn, e.client, e.clean, e.will)
  }

  lemma {:induction false} RetainedPlain(found: seq<T.Tree>, sub: Subscription)
    ensures AllPlain(RetainedDeliveries(found, sub))
  {
    if found != [] {
      RetainedPlain(found[..|found| - 1], sub);
    }
  }

  lemma {:induction false} FiltersPlain(topics: T.Tree, s: SessionRef, filters: seq<P.FilterQos>)
    ensures AllPlain(PlanFilters(topics, s, filters))
    decreases |filters|
  {
    hide I.Apply, T.Reverse, SortByTime, F.Split, F.ValidFilterName, RetainedDeliveries;
    if filters != [] {
      var n := |filters| - 1;
      FiltersPlain(topics, s, filters[..n]);
      var f := filters[n];
      var op := I.Subscribe(s, f.filter, f.qos);
      RetainedPlain(SortByTime(T.Reverse(I.Apply(TopicsAfter(topics, s, filters[..n]), op), F.Split(f.filter))), Subscription(s, f.qos));
    }
  }

  lemma PublishPlain(topics: T.Tree, topic: Bytes, payload: Bytes, qos: byte, retain: bool, clock: int)
    ensures AllPlain(PlanPublish(topics, topic, payload, qos, retain, clock))
  {
    hide T.Match, Recipients, F.Split;
  }

  lemma LeavePlain(st: State, k: ConnRef, graceful: bool)
    requires k < |st.conns|
    ensures AllPlain(PlanLeave(st, k, graceful))
  {
    hide PlanPublish;
    if st.conns[k].session.Some? && st.conns[k].will.Some? {
      var w := st.conns[k].will.value;
      PublishPlain(I.Apply(st.topics, I.UnsubscribeAll(st.conns[k].session.value, graceful)), w.topic, w.payload, w.qos, w.retain, st.clock);
    }
  }

  /** Only a CONNECT makes a session or replays one. */
  lemma PlanIsPlain(st: State, e: Event)
    ensures Connects(st, e) || AllPlain(Plan(st, e))
  {
    hide PlanPublish, PlanFilters, PlanLeave, PlanConnect, F.ValidTopicName;
    if !e.Accept? && !e.OnTick? && Connected(st, Some(e.conn)) && st.conns[e.conn].session.Some? {
      var s := st.conns[e.conn].session.value;
      LeavePlain(st, e.conn, true);
      LeavePlain(st, e.conn, false);
      match e {
        case OnPublish(k, topic, payload, flags, id) => PublishPlain(st.topics, topic, payload, flags.qos, flags.retain, st.clock);
        case OnSubscribe(k, id, filters) => FiltersPlain(st.topics, s, filters);
        case _ =>
      }
    }
  }

  /** A CONNECT makes the session first, and replays on its own connection. */
  lemma ConnectAttaches(st: State, k: ConnRef, id: ClientId, clean: bool, will: Option<Message>)
    ensures var plan := PlanConnect(st, k, id, clean, will);
            && plan == [Attach(k, id, clean, will)] + plan[1..]
            && forall i :: 0 <= i < |plan[1..]| ==>
                 && !plan[1..][i].Attach?
                 && (plan[1..][i].Replay? ==> plan[1..][i].conn == k && plan[1..][i].num == |st.sessions|)
  {
    hide Ascending;
  }

  predicate AllWireOk(st: State, actions: seq<Action>) {
    forall i :: 0 <= i < |actions| ==> WireOk(st, actions[i])
  }

  lemma WireOkPersists(st: State, a: Action, b: Action)
    requires WireOk(st, b)
    ensures WireOk(Do(st, a), b)
  {
    hide Do;
    if b.Replay? {
      JoinedKept(st, a, Some(b.conn));
    }
    if b.Index? && !b.op.Retain? && !b.op.Begin? {
      RefPersists(st, a, b.op.s);
    }
  }

  lemma {:induction false} ExecKeepsWired(st: State, actions: seq<Action>)
    requires Wired(st) && AllWireOk(st, actions)
    ensures Wired(Exec(st, actions))
    ensures forall b :: WireOk(st, b) ==> WireOk(Exec(st, actions), b)
    decreases |actions|
  {
    hide Do, Wired, WireOk;
    if actions != [] {
      var n := |actions| - 1;
      var mid := Exec(st, actions[..n]);
      ExecKeepsWired(st, actions[..n]);
      assert WireOk(st, actions[n]);
      DoKeepsWired(mid, actions[n]);
      forall b | WireOk(mid, b) ensures WireOk(Do(mid, actions[n]), b) {
        WireOkPersists(mid, actions[n], b);
      }
    }
  }

  lemma FirstThenRest(st: State, a: Action, rest: seq<Action>)
    ensures Exec(st, [a] + rest) == Exec(Do(st, a), rest)
  {
    hide Do;
    H.ExecSplit(st, [a] + rest, 1);
    assert ([a] + rest)[..1] == [a] && ([a] + rest)[1..] == rest;
    assert [a][..0] == [] && Exec(st, []) == st;
  }

  lemma OkAfterAttach(st: State, a: Action, b: Action)
    requires ActionOk(st, b)
    ensures ActionOk(Do(st, a), b)
  {
    hide Do;
    if b.Index? && !b.op.Retain? && !b.op.Begin? {
      RefPersists(st, a, b.op.s);
    }
  }

  lemma AttachJoins(st: State, k: ConnRef, id: ClientId, clean: bool, will: Option<Message>)
    requires k < |st.conns|
    ensures Joined(Do(st, Attach(k, id, clean, will)), Some(k))
  {
  }

  lemma RestWireOk(st: State, e: Event)
    requires Inv(st) && Connects(st, e)
    ensures AllWireOk(Do(st, Attach(e.conn, e.client, e.clean, e.will)), Plan(st, e)[1..])
  {
    hide Do, Plan, PlanConnect, Exec, Inv, Joined;
    var first := Attach(e.conn, e.client, e.clean, e.will);
    var plan := Plan(st, e);
    PlanOk(st, e);
    ConnectAttaches(st, e.conn, e.client, e.clean, e.will);
    AttachJoins(st, e.conn, e.client, e.clean, e.will);
    forall i | 0 <= i < |plan[1..]| ensures WireOk(Do(st, first), plan[1..][i]) {
      assert plan[1..][i] == plan[i + 1];
      OkAfterAttach(st, first, plan[i + 1]);
    }
  }

  lemma StepKeepsWired(st: State, e: Event)
    requires Wired(st)
    ensures Wired(Step(st, e))
  {
    hide Do, Plan, PlanConnect, Exec, Wired, Joined;
    InvOfWired(st);
    PlanOk(st, e);
    PlanIsPlain(st, e);
    var plan := Plan(st, e);
    if Connects(st, e) {
      var first := Attach(e.conn, e.client, e.clean, e.will);
      ConnectAttaches(st, e.conn, e.client, e.clean, e.will);
      DoKeepsWired(st, first);
      RestWireOk(st, e);
      FirstThenRest(st, first, plan[1..]);
      ExecKeepsWired(Do(st, first), plan[1..]);
    } else {
      ExecKeepsWired(st, plan);
    }
    ClockOfWired(Exec(st, plan), st.clock + 1);
  }

  lemma InvOfWired(st: State)
    requires Wired(st)
    ensures Inv(st)
  {
  }

  lemma ClockOfWired(st: State, t: int)
    requires Wired(st)
    ensures Wired(st.(clock := t))
  {
    ClockIsFree(st, t);
    hide Inv;
    var st' := st.(clock := t);
    assert forall n, i, m :: HoldsAt(st', n, i, m) ==> HoldsAt(st, n, i, m);
    assert forall k :: Joined(st, k) ==> Joined(st', k);
  }

  /** So it is after every run. */
  lemma {:induction false} RunKeepsWired(st: State, events: seq<Event>)
    requires Wired(st)
    ensures Wired(Run(st, events))
    decreases |events|
  {
    hide Wired, Step;
    if events != [] {
      RunKeepsWired(st, events[..|events| - 1]);
      StepKeepsWired(Run(st, events[..|events| - 1]), events[|events| - 1]);
    }
  }
}

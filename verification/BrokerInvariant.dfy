/** What every action of the broker keeps. */
module BrokerInvariant {
  import opened Base
  import opened Filters
  import opened Sessions
  import opened Detaching
  import opened Delivery
  import I = IndexSpec
  import M = Matching
  import P = Packets
  import S = Sequencer
  import T = TopicTree
  import U = TreeUpdates

  /** A session handle is that of an object in the table. */
  predicate RefOk(st: State, s: SessionRef) {
    s.num < |st.sessions| && st.sessions[s.num].ref == s
  }

  /** A stored message lives in the arena; one that Publish made is under the identifier of its own call. */
  predicate StoreOk(st: State) {
    forall id :: id in st.store ==>
      && st.store[id] < |st.msgs|
      && var o := st.msgs[st.store[id]].origin;
         o.Live? ==> id == S.IdOfCall(o.call) && o.call < st.calls
  }

  /** Sessions hold queued, inbound and loaded messages only, never one that was sent when it was made. */
  predicate SessionOk(st: State, n: nat)
    requires n < |st.sessions|
  {
    && st.sessions[n].ref.num == n
    && forall id :: id in st.sessions[n].messages ==>
         st.sessions[n].messages[id] < |st.msgs| && !st.msgs[st.sessions[n].messages[id]].origin.Live?
  }

  predicate SessionsOk(st: State) {
    forall n :: 0 <= n < |st.sessions| ==> SessionOk(st, n)
  }

  predicate ConnOk(st: State, k: nat)
    requires k < |st.conns|
  {
    st.conns[k].session.Some? ==>
      RefOk(st, st.conns[k].session.value) && st.conns[k].session.value.id == st.conns[k].id
  }

  /** Every connection made its own session object. */
  predicate ConnsOk(st: State) {
    && (forall k :: 0 <= k < |st.conns| ==> ConnOk(st, k))
    && forall j, k :: 0 <= j < k < |st.conns| && st.conns[j].session.Some? && st.conns[k].session.Some? ==>
         st.conns[j].session != st.conns[k].session
  }

  ghost predicate EntriesOk(st: State) {
    forall p: Path, i :: 0 <= i < |T.SubsAt(st.topics, p)| ==> RefOk(st, T.SubsAt(st.topics, p)[i].session)
  }

  ghost predicate Inv(st: State) {
    I.RootOk(st.topics) && StoreOk(st) && SessionsOk(st) && ConnsOk(st) && EntriesOk(st)
  }

  predicate ActionOk(st: State, a: Action) {
    a.Index? && !a.op.Retain? && !a.op.Begin? ==> RefOk(st, a.op.s)
  }

  lemma InitiallyInv(disk: Disk)
    ensures Inv(Initial(disk))
  {
    forall p: Path ensures T.SubsAt(T.EMPTY_TREE, p) == [] {
      if p != [] {
        assert T.At(T.EMPTY_TREE, p) == None;
      }
    }
  }

  // ---------- handles stay good ----------

  lemma DetachKeeps(table: seq<SessionState>, kids: seq<T.Tree>, id: ClientId, top: bool, deep: bool, n: nat)
    requires n < |table|
    ensures var r := DetachKids(table, kids, id, top, deep)[n];
            r == table[n] || r == table[n].(client := None)
  {
    DetachKidsSpares(table, kids, id, top, deep, n);
  }

  /** No action removes a session object or changes its fixed fields. */
  lemma SessionsPersist(st: State, a: Action)
    ensures |st.sessions| <= |Do(st, a).sessions|
    ensures forall n :: 0 <= n < |st.sessions| ==> Do(st, a).sessions[n].ref == st.sessions[n].ref
  {
    if a.Index? && a.op.UnsubscribeAll? {
      forall n | 0 <= n < |st.sessions| ensures Do(st, a).sessions[n].ref == st.sessions[n].ref {
        DetachKeeps(st.sessions, st.topics.kids, a.op.s.id, a.op.graceful || a.op.s.clean, a.op.s.clean, n);
      }
    }
  }

  lemma RefPersists(st: State, a: Action, s: SessionRef)
    requires RefOk(st, s)
    ensures RefOk(Do(st, a), s)
  {
    SessionsPersist(st, a);
  }

  // ---------- the parts of the invariant, action by action ----------

  lemma {:induction false} LoadedMapRange(base: nat, keys: seq<PacketId>, id: PacketId)
    requires id in LoadedMap(base, keys)
    ensures base <= LoadedMap(base, keys)[id] < base + |keys|
  {
    if keys[|keys| - 1] != id {
      LoadedMapRange(base, keys[..|keys| - 1], id);
    }
  }

  lemma StoreKeptByDeliver(st: State, sub: Subscription, topic: Bytes, payload: Bytes, qos: byte, msg: Message)
    requires StoreOk(st)
    ensures StoreOk(DoDeliver(st, sub, topic, payload, qos)) && StoreOk(DoDeliverRetained(st, sub, msg))
  {
  }

  lemma StatusChangeIsHarmless(st: State, m: MsgRef, status: Status)
    requires StoreOk(st)
    ensures StoreOk(st.(msgs := WithStatus(st.msgs, m, status)))
  {
    hide WithStatus, S.IdOfCall;
  }

  lemma StoreKeptByAck(st: State, num: nat, id: PacketId, status: AckStatus, delete: bool, save: bool)
    requires StoreOk(st)
    ensures StoreOk(DoAckStored(st, id, status, delete)) && StoreOk(DoAckSession(st, num, id, status, delete, save))
  {
    if id in st.store {
      StatusChangeIsHarmless(st, st.store[id], status);
    }
    if num < |st.sessions| && id in st.sessions[num].messages {
      StatusChangeIsHarmless(st, st.sessions[num].messages[id], status);
    }
    hide WithStatus, S.IdOfCall;
  }

  lemma StoreKeptBySession(st: State, k: ConnRef, num: nat, id: PacketId)
    requires StoreOk(st) && SessionsOk(st)
    ensures StoreOk(DoReplay(st, k, num, id)) && StoreOk(DoLoad(st, num))
  {
    if num < |st.sessions| {
      assert SessionOk(st, num);
    }
  }

  lemma StoreKept(st: State, a: Action)
    requires StoreOk(st) && SessionsOk(st)
    ensures StoreOk(Do(st, a))
  {
    hide DoDeliver, DoDeliverRetained, DoAckStored, DoAckSession, DoReplay, DoLoad;
    match a {
      case Deliver(sub, topic, payload, qos) =>
        StoreKeptByDeliver(st, sub, topic, payload, qos, Message([], [], 0, false, 0));
      case DeliverRetained(sub, msg) => StoreKeptByDeliver(st, sub, [], [], 0, msg);
      case AckStored(id, status, delete) => StoreKeptByAck(st, 0, id, status, delete, false);
      case AckSession(num, id, status, delete, save) => StoreKeptByAck(st, num, id, status, delete, save);
      case Replay(k, num, id) => StoreKeptBySession(st, k, num, id);
      case Load(num) => StoreKeptBySession(st, 0, num, 0);
      case _ =>
    }
  }

  lemma SessionsKept(st: State, a: Action)
    requires SessionsOk(st)
    ensures SessionsOk(Do(st, a))
  {
    var st' := Do(st, a);
    SessionsPersist(st, a);
    forall n | 0 <= n < |st'.sessions| ensures SessionOk(st', n) {
      if n < |st.sessions| {
        assert SessionOk(st, n);
        SessionKept(st, a, n);
      } else {
        assert a.Attach?;
      }
    }
  }

  lemma SessionKeptByCopy(st: State, sub: Subscription, topic: Bytes, payload: Bytes, qos: byte, n: nat)
    requires n < |st.sessions| && SessionOk(st, n)
    ensures n < |DoDeliver(st, sub, topic, payload, qos).sessions| && SessionOk(DoDeliver(st, sub, topic, payload, qos), n)
  {
    hide S.IdOfCall, Snapshot;
  }

  lemma SessionKeptByRetained(st: State, sub: Subscription, msg: Message, n: nat)
    requires n < |st.sessions| && SessionOk(st, n)
    ensures n < |DoDeliverRetained(st, sub, msg).sessions| && SessionOk(DoDeliverRetained(st, sub, msg), n)
  {
    hide S.IdOfCall;
  }

  lemma SessionKeptByDeliver(st: State, sub: Subscription, topic: Bytes, payload: Bytes, qos: byte, msg: Message, n: nat)
    requires n < |st.sessions| && SessionOk(st, n)
    ensures n < |DoDeliver(st, sub, topic, payload, qos).sessions| && SessionOk(DoDeliver(st, sub, topic, payload, qos), n)
    ensures n < |DoDeliverRetained(st, sub, msg).sessions| && SessionOk(DoDeliverRetained(st, sub, msg), n)
  {
    hide DoDeliver, DoDeliverRetained, SessionOk;
    SessionKeptByCopy(st, sub, topic, payload, qos, n);
    SessionKeptByRetained(st, sub, msg, n);
  }

  lemma SavedKeepsRest(st: State, num: nat)
    ensures Saved(st, num) == st.(disk := Saved(st, num).disk)
  {
  }

  lemma SessionSurvivesStatus(st: State, m: MsgRef, status: Status, n: nat)
    requires n < |st.sessions| && SessionOk(st, n)
    ensures SessionOk(st.(msgs := WithStatus(st.msgs, m, status)), n)
  {
    hide WithStatus;
  }

  lemma SessionKeptByAck(st: State, num: nat, id: PacketId, status: AckStatus, delete: bool, save: bool, n: nat)
    requires n < |st.sessions| && SessionOk(st, n)
    ensures n < |DoAckStored(st, id, status, delete).sessions| && SessionOk(DoAckStored(st, id, status, delete), n)
    ensures n < |DoAckSession(st, num, id, status, delete, save).sessions| && SessionOk(DoAckSession(st, num, id, status, delete, save), n)
  {
    if id in st.store {
      SessionSurvivesStatus(st, st.store[id], status, n);
    }
    if num < |st.sessions| && id in st.sessions[num].messages {
      SessionSurvivesStatus(st, st.sessions[num].messages[id], status, n);
    }
    hide WithStatus, Saved;
    SavedKeepsRest(AckedSession(st, num, id, status, delete), num);
  }

  /** What load brings in: new objects, all of them marked as loaded. */
  lemma LoadedFacts(st: State, num: nat)
    requires num < |st.sessions| && st.sessions[num].ref.id in st.disk
    ensures var st' := DoLoad(st, num);
            && |st'.sessions| == |st.sessions| && (forall n :: 0 <= n < |st.sessions| && n != num ==> st'.sessions[n] == st.sessions[n])
            && st'.sessions[num] == st.sessions[num].(messages := st'.sessions[num].messages)
            && st.msgs <= st'.msgs
            && (forall m :: |st.msgs| <= m < |st'.msgs| ==> st'.msgs[m].origin.Loaded?)
            && (forall id :: id in st'.sessions[num].messages ==> |st.msgs| <= st'.sessions[num].messages[id] < |st'.msgs|)
  {
    var stored := st.disk[st.sessions[num].ref.id];
    var keys := Ascending(stored.Keys, 0);
    forall id | id in LoadedMap(|st.msgs|, keys)
      ensures |st.msgs| <= LoadedMap(|st.msgs|, keys)[id] < |st.msgs| + |keys|
    {
      LoadedMapRange(|st.msgs|, keys, id);
    }
  }

  lemma SessionKeptByLoad(st: State, num: nat, n: nat)
    requires n < |st.sessions| && SessionOk(st, n)
    ensures n < |DoLoad(st, num).sessions| && SessionOk(DoLoad(st, num), n)
  {
    if num < |st.sessions| && st.sessions[num].ref.id in st.disk {
      LoadedFacts(st, num);
      hide DoLoad;
    }
  }

  lemma SessionKeptByRest(st: State, a: Action, n: nat)
    requires n < |st.sessions| && SessionOk(st, n)
    requires !a.Deliver? && !a.DeliverRetained? && !a.AckStored? && !a.AckSession? && !a.Load? && !a.Index?
    ensures n < |Do(st, a).sessions| && SessionOk(Do(st, a), n)
  {
    hide DoDeliver, DoDeliverRetained, DoAckStored, DoAckSession, DoLoad, DoIndex, DoRetry, Saved;
    if a.Retry? {
      RetryKeepsRest(st, a.loop);
    } else if a.Save? {
      SavedKeepsRest(st, a.num);
    }
  }

  lemma RetryKeepsRest(st: State, n: nat)
    ensures DoRetry(st, n) == st.(log := DoRetry(st, n).log, retries := DoRetry(st, n).retries)
  {
  }

  lemma SessionKept(st: State, a: Action, n: nat)
    requires n < |st.sessions| && SessionOk(st, n)
    ensures n < |Do(st, a).sessions| && SessionOk(Do(st, a), n)
  {
    hide DoDeliver, DoDeliverRetained, DoAckStored, DoAckSession, DoLoad;
    match a {
      case Deliver(sub, topic, payload, qos) =>
        SessionKeptByDeliver(st, sub, topic, payload, qos, Message([], [], 0, false, 0), n);
      case DeliverRetained(sub, msg) => SessionKeptByDeliver(st, sub, [], [], 0, msg, n);
      case AckStored(id, status, delete) => SessionKeptByAck(st, 0, id, status, delete, false, n);
      case AckSession(num, id, status, delete, save) => SessionKeptByAck(st, num, id, status, delete, save, n);
      case Index(op) =>
        if op.UnsubscribeAll? {
          DetachKeeps(st.sessions, st.topics.kids, op.s.id, op.graceful || op.s.clean, op.s.clean, n);
        }
      case Load(num) => SessionKeptByLoad(st, num, n);
      case _ => SessionKeptByRest(st, a, n);
    }
  }

  lemma ConnsOfDo(st: State, a: Action)
    ensures Do(st, a).conns ==
            if a.Open? || a.Attach? || a.Close? then Do(st, a).conns else st.conns
  {
  }

  /** A connection keeps its session object, unless it makes a new one. */
  lemma ConnKept(st: State, a: Action, k: nat)
    requires k < |st.conns| && ConnOk(st, k)
    ensures k < |Do(st, a).conns| && ConnOk(Do(st, a), k)
    ensures Do(st, a).conns[k].session == st.conns[k].session
         || (a.Attach? && a.conn == k && Do(st, a).conns[k].session == Some(SessionRef(a.client, |st.sessions|, a.clean)))
  {
    SessionsPersist(st, a);
    ConnsOfDo(st, a);
    if !(a.Open? || a.Attach? || a.Close?) {
      hide Do;
    }
  }

  lemma NewConn(st: State, a: Action)
    ensures |st.conns| <= |Do(st, a).conns|
    ensures forall k :: |st.conns| <= k < |Do(st, a).conns| ==> Do(st, a).conns[k].session == None
  {
    ConnsOfDo(st, a);
  }

  lemma ConnsKept(st: State, a: Action)
    requires ConnsOk(st)
    ensures ConnsOk(Do(st, a))
  {
    var st' := Do(st, a);
    NewConn(st, a);
    hide Do;
    forall k | 0 <= k < |st'.conns| ensures ConnOk(st', k) {
      if k < |st.conns| {
        ConnKept(st, a, k);
      }
    }
    forall j, k | 0 <= j < k < |st'.conns| && st'.conns[j].session.Some? && st'.conns[k].session.Some?
      ensures st'.conns[j].session != st'.conns[k].session
    {
      ConnKept(st, a, j);
      ConnKept(st, a, k);
      assert ConnOk(st, j) && ConnOk(st, k);
    }
  }

  lemma EntriesKept(st: State, a: Action)
    requires I.RootOk(st.topics) && EntriesOk(st) && ActionOk(st, a)
    ensures EntriesOk(Do(st, a))
  {
    var st' := Do(st, a);
    SessionsPersist(st, a);
    TopicsOfDo(st, a);
    hide Do, T.SubsAt, I.Apply;
    forall p: Path, i | 0 <= i < |T.SubsAt(st'.topics, p)| ensures RefOk(st', T.SubsAt(st'.topics, p)[i].session) {
      var x := T.SubsAt(st'.topics, p)[i];
      if a.Index? {
        EntryOrigin(st.topics, a.op, p, x);
      }
      if x in T.SubsAt(st.topics, p) {
        var j :| 0 <= j < |T.SubsAt(st.topics, p)| && T.SubsAt(st.topics, p)[j] == x;
        assert RefOk(st, x.session);
      }
    }
  }

  lemma TopicsOfDo(st: State, a: Action)
    ensures Do(st, a).topics == if a.Index? then I.Apply(st.topics, a.op) else st.topics
  {
  }

  /** An entry after an operation was there before or is that of the subscribing session. */
  lemma EntryOrigin(root: T.Tree, op: I.Op, p: Path, x: Subscription)
    requires I.RootOk(root) && x in T.SubsAt(I.Apply(root, op), p)
    ensures x in T.SubsAt(root, p) || (op.Subscribe? && x.session == op.s)
  {
    RootHasNoEntries(root);
    hide T.Insert, T.Delete, T.DropAll, T.Retain, T.SubsAt, T.WellFormed, Split;
    assert T.WellFormed(root);
    match op {
      case Subscribe(s, f, qos) =>
        if ValidFilterName(f) {
          I.SplitIsValidPath(f);
          U.InsertFlat(root, Split(f), s, qos, p);
          UpsertMember(T.SubsAt(root, p), s, qos, x);
        }
      case Unsubscribe(s, f) =>
        U.DeleteFlat(root, Split(f), s.id, p);
        RemoveMember(T.SubsAt(root, p), s.id, x);
      case UnsubscribeAll(s, graceful) =>
        U.DropAllFlat(root, s.id, graceful || s.clean, s.clean, p);
        RemoveMember(T.SubsAt(root, p), s.id, x);
      case Retain(msg, t) =>
        U.RetainFlat(root, Split(t), msg, p);
      case Begin(_, _) =>
    }
  }

  lemma RootHasNoEntries(root: T.Tree)
    requires I.RootOk(root)
    ensures T.SubsAt(root, []) == root.subs == []
  {
  }

  lemma UpsertMember(subs: seq<Subscription>, s: SessionRef, qos: byte, x: Subscription)
    ensures x in T.Upsert(subs, s, qos) ==> x in subs || x.session == s
  {
  }

  lemma RemoveMember(subs: seq<Subscription>, id: ClientId, x: Subscription)
    ensures x in T.Remove(subs, id) ==> x in subs
  {
  }

  lemma DoKeepsInv(st: State, a: Action)
    requires Inv(st) && ActionOk(st, a)
    ensures Inv(Do(st, a))
  {
    hide Do, StoreOk, SessionsOk, ConnsOk, EntriesOk, RefOk, I.RootOk;
    StoreKept(st, a);
    SessionsKept(st, a);
    ConnsKept(st, a);
    EntriesKept(st, a);
    TopicsKept(st, a);
  }

  lemma TopicsKept(st: State, a: Action)
    requires I.RootOk(st.topics)
    ensures I.RootOk(Do(st, a).topics)
  {
    if a.Index? {
      I.ApplyKeepsRootOk(st.topics, a.op);
    }
  }

  // ---------- events ----------

  predicate AllOk(st: State, actions: seq<Action>) {
    forall i :: 0 <= i < |actions| ==> ActionOk(st, actions[i])
  }

  lemma {:induction false} ExecKeepsInv(st: State, actions: seq<Action>)
    requires Inv(st) && AllOk(st, actions)
    ensures Inv(Exec(st, actions))
    ensures forall a :: ActionOk(st, a) ==> ActionOk(Exec(st, actions), a)
    decreases |actions|
  {
    if actions != [] {
      var n := |actions| - 1;
      var mid := Exec(st, actions[..n]);
      ExecKeepsInv(st, actions[..n]);
      assert ActionOk(st, actions[n]);
      DoKeepsInv(mid, actions[n]);
      forall a | ActionOk(mid, a) ensures ActionOk(Do(mid, actions[n]), a) {
        if a.Index? && !a.op.Retain? && !a.op.Begin? {
          RefPersists(mid, actions[n], a.op.s);
        }
      }
    }
  }

  lemma PublishActionsOk(st: State, topics: T.Tree, topic: Bytes, payload: Bytes, qos: byte, retain: bool, clock: int)
    ensures AllOk(st, PlanPublish(topics, topic, payload, qos, retain, clock))
  {
  }

  lemma {:induction false} RetainedActionsOk(st: State, found: seq<T.Tree>, sub: Subscription)
    ensures AllOk(st, RetainedDeliveries(found, sub))
  {
    if found != [] {
      RetainedActionsOk(st, found[..|found| - 1], sub);
    }
  }

  lemma {:induction false} FilterActionsOk(st: State, topics: T.Tree, s: SessionRef, filters: seq<P.FilterQos>)
    requires RefOk(st, s)
    ensures AllOk(st, PlanFilters(topics, s, filters))
    decreases |filters|
  {
    hide I.Apply, T.Reverse, SortByTime, Split, ValidFilterName, RetainedDeliveries, RefOk;
    if filters != [] {
      var n := |filters| - 1;
      FilterActionsOk(st, topics, s, filters[..n]);
      var f := filters[n];
      var before := TopicsAfter(topics, s, filters[..n]);
      if ValidFilterName(f.filter) {
        RetainedActionsOk(st, SortByTime(T.Reverse(I.Apply(before, I.Subscribe(s, f.filter, f.qos)), Split(f.filter))), Subscription(s, f.qos));
      }
    }
  }

  lemma PlanOk(st: State, e: Event)
    requires Inv(st)
    ensures AllOk(st, Plan(st, e))
  {
    if !e.Accept? && !e.OnTick? && Connected(st, Some(e.conn)) && st.conns[e.conn].session.Some? {
      assert ConnOk(st, e.conn);
      PlanPacketOk(st, st.conns[e.conn].session.value, e);
    }
  }

  lemma PlanPacketOk(st: State, s: SessionRef, e: Event)
    requires !e.Accept? && !e.OnTick? && e.conn < |st.conns|
    requires RefOk(st, s) && st.conns[e.conn].session == Some(s)
    ensures AllOk(st, PlanPacket(st, s, e))
  {
    hide PlanPublish, PlanFilters;
    match e {
      case OnPublish(k, topic, payload, flags, id) =>
        PublishActionsOk(st, st.topics, topic, payload, flags.qos, flags.retain, st.clock);
      case OnSubscribe(k, id, filters) => FilterActionsOk(st, st.topics, s, filters);
      case _ =>
    }
    if st.conns[e.conn].will.Some? {
      var w := st.conns[e.conn].will.value;
      PublishActionsOk(st, I.Apply(st.topics, I.UnsubscribeAll(s, false)), w.topic, w.payload, w.qos, w.retain, st.clock);
    }
  }

  lemma StepKeepsInv(st: State, e: Event)
    requires Inv(st)
    ensures Inv(Step(st, e))
  {
    PlanOk(st, e);
    ExecKeepsInv(st, Plan(st, e));
    ClockIsFree(Exec(st, Plan(st, e)), st.clock + 1);
  }

  lemma ClockIsFree(st: State, t: int)
    requires Inv(st)
    ensures Inv(st.(clock := t))
  {
    var st' := st.(clock := t);
    assert forall s :: RefOk(st, s) ==> RefOk(st', s);
    assert forall n :: 0 <= n < |st.sessions| && SessionOk(st, n) ==> SessionOk(st', n);
    assert forall k :: 0 <= k < |st.conns| && ConnOk(st, k) ==> ConnOk(st', k);
  }

  /** The invariant holds after every run. */
  lemma {:induction false} RunKeepsInv(st: State, events: seq<Event>)
    requires Inv(st)
    ensures Inv(Run(st, events))
    decreases |events|
  {
    if events != [] {
      RunKeepsInv(st, events[..|events| - 1]);
      StepKeepsInv(Run(st, events[..|events| - 1]), events[|events| - 1]);
    }
  }

  // ---------- the entries that Publish goes through ----------

  lemma {:induction false} RecipientOrigin(matches: seq<T.Tree>, i: nat) returns (j: nat)
    requires i < |Recipients(matches)|
    ensures j < |matches| && Recipients(matches)[i] in matches[j].subs
  {
    var n := |matches| - 1;
    if i < |Recipients(matches[..n])| {
      j := RecipientOrigin(matches[..n], i);
    } else {
      j := n;
    }
  }

  lemma RecipientIsEntry(root: T.Tree, topic: Path, i: nat) returns (p: Path, h: nat)
    requires I.RootOk(root) && topic != [] && i < |Recipients(T.Match(root, topic))|
    ensures h < |T.SubsAt(root, p)| && T.SubsAt(root, p)[h] == Recipients(T.Match(root, topic))[i]
    ensures p != [] && M.MatchesBelow(p, topic)
  {
    var matches := T.Match(root, topic);
    var j := RecipientOrigin(matches, i);
    I.MatchedNode(root, topic, matches[j]);
    p := matches[j].path;
    h :| 0 <= h < |matches[j].subs| && matches[j].subs[h] == Recipients(matches)[i];
  }

  lemma RecipientsOk(st: State, topic: Path)
    requires Inv(st) && topic != []
    ensures forall i :: 0 <= i < |Recipients(T.Match(st.topics, topic))| ==>
      RefOk(st, Recipients(T.Match(st.topics, topic))[i].session)
  {
    forall i | 0 <= i < |Recipients(T.Match(st.topics, topic))|
      ensures RefOk(st, Recipients(T.Match(st.topics, topic))[i].session)
    {
      var p, h := RecipientIsEntry(st.topics, topic, i);
    }
  }
}

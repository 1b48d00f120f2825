/** Runs from the start of the broker on which it departs from MQTT 3.1.1: a client "c" with a persistent
    session that has subscribed to "a", and a client "p" that publishes to it. */
module Scenes {
  import opened Base
  import opened Filters
  import opened Sessions
  import opened Delivery
  import opened Wiring
  import B = Broker
  import CO = ConnectingOnce
  import D = IndexDelivery
  import FR = Freshness
  import I = IndexSpec
  import IO = InboundOnce
  import L = Leaving
  import M = Matching
  import N = ToldHistory
  import O = Offline
  import P = Packets
  import R = Replay
  import Reaching
  import S = Sequencer
  import ST = Settled
  import T = TopicTree

  const A: Bytes := [97]
  const C0: SessionRef := SessionRef("c", 0, false)
  const P1: SessionRef := SessionRef("p", 1, true)
  const C2: SessionRef := SessionRef("c", 2, false)

  // ---------- the index ----------

  function TreeOfA(q: byte): T.Tree {
    T.Level([], [], None, false, false, [T.Level([A], [Subscription(C0, q)], None, false, false, [])])
  }

  lemma SplitA()
    ensures Split(A) == [A] && ValidFilterName(A) && ValidTopicName(A)
  {
    D.HashFilterOfA();
  }

  lemma InsertA(q: byte)
    ensures I.Apply(T.EMPTY_TREE, I.Subscribe(C0, A, q)) == TreeOfA(q)
    ensures T.Reverse(TreeOfA(q), [A]) == []
  {
    SplitA();
    var k := T.NewLevel([A]);
    assert T.EMPTY_TREE.path + [A] == [A];
    assert T.Kid(T.EMPTY_TREE, A) == k;
    assert T.Upsert(k.subs, C0, q) == [Subscription(C0, q)];
    var t := TreeOfA(q);
    assert T.ReverseAll(t.kids[..0], [A]) == [];
    assert A != HASH_SEG by { assert A[0] != HASH_SEG[0]; }
    assert T.Rest([A]) == [] && T.Reverse(t.kids[0], []) == [];
    assert T.ReverseAll(t.kids, [A]) == [];
  }

  lemma MatchA(q: byte)
    ensures Recipients(T.Match(TreeOfA(q), [A])) == [Subscription(C0, q)]
  {
    var t := TreeOfA(q);
    var k := t.kids[0];
    assert T.Name(k) == A && T.Name(t) == [];
    assert T.FindAll(t.kids[..0], A) == [];
    assert T.FindAll(t.kids, A) == [k];
    assert T.Match(k, []) == [k];
    assert A != HASH_SEG by { assert A[0] != HASH_SEG[0]; }
    assert [A][1..] == [];
    assert T.MatchAll([k][..0], []) == [];
    assert T.MatchAll([k], []) == [k];
    assert T.Match(t, [A]) == [k];
    assert Recipients([k][..0]) == [];
  }

  lemma DropNothing(t: T.Tree, id: ClientId)
    requires t.kids == []
    ensures T.DropAll(t, id, false, false) == t
  {
  }

  lemma LeavingA(q: byte, s: SessionRef)
    requires !s.clean
    ensures I.Apply(TreeOfA(q), I.UnsubscribeAll(s, false)) == TreeOfA(q)
  {
    var t := TreeOfA(q);
    DropNothing(t.kids[0], s.id);
    assert T.DropAll(t, s.id, false, false).kids == t.kids;
  }

  // ---------- connecting ----------

  /** A CONNECT that finds nothing to replay. */
  function Connecting(st: State, k: ConnRef, id: ClientId, clean: bool): State
    requires k < |st.conns|
  {
    var ref := SessionRef(id, |st.sessions|, clean);
    st.(sessions := st.sessions + [SessionState(ref, Some(k), map[])],
        conns := st.conns[k := st.conns[k].(id := id, session := Some(ref))],
        disk := if clean then st.disk - {id} else st.disk[id := map[]],
        log := st.log + [Sent(k, ConnAck(!clean && id in st.disk), None)],
        clock := st.clock + 1)
  }

  lemma NoKeys(ids: set<PacketId>)
    requires ids == {}
    ensures Ascending(ids, 0) == []
  {
    hide Ascending;
    R.AscendingIsSorted(ids, 0);
    R.SortedListsAgree(Ascending(ids, 0), []);
  }

  lemma OneKey(p: PacketId)
    ensures Ascending({p}, 0) == [p]
  {
    hide Ascending;
    R.AscendingIsSorted({p}, 0);
    R.SortedListsAgree(Ascending({p}, 0), [p]);
  }

  /** After the session is made. */
  function Attached(st: State, k: ConnRef, id: ClientId, clean: bool): State
    requires k < |st.conns|
  {
    var ref := SessionRef(id, |st.sessions|, clean);
    st.(sessions := st.sessions + [SessionState(ref, Some(k), map[])],
        conns := st.conns[k := st.conns[k].(id := id, session := Some(ref))])
  }

  lemma AttachDone(st: State, k: ConnRef, id: ClientId, clean: bool)
    requires k < |st.conns|
    ensures Do(st, Attach(k, id, clean, None)) == Attached(st, k, id, clean)
  {
  }

  lemma DoIs(st: State, num: nat, id: ClientId, k: ConnRef, p: Packet)
    ensures Do(st, Load(num)) == DoLoad(st, num) && Do(st, Save(num)) == Saved(st, num)
    ensures Do(st, Erase(id)) == st.(disk := st.disk - {id}) && Do(st, Send(k, p)) == Logged(st, Sent(k, p, None))
    ensures Do(st, Replay(k, num, 1)) == DoReplay(st, k, num, 1)
  {
    hide DoLoad, Saved, Logged, DoReplay;
  }

  lemma SecondAction(st: State, k: ConnRef, id: ClientId, clean: bool)
    requires k < |st.conns| && (clean || id !in st.disk || st.disk[id] == map[])
    ensures var num := |st.sessions|;
            var mid := Attached(st, k, id, clean);
            Do(mid, if clean then Erase(id) else if id in st.disk then Load(num) else Save(num))
            == mid.(disk := if clean then st.disk - {id} else st.disk[id := map[]])
  {
    hide Do, DoLoad, Saved;
    var num := |st.sessions|;
    var mid := Attached(st, k, id, clean);
    DoIs(mid, num, id, k, PingResp);
    if clean {
    } else if id in st.disk {
      LoadsNothing(mid, num);
    } else {
      SavesNothing(mid, num);
    }
  }

  lemma ConnectStep(st: State, k: ConnRef, id: ClientId, clean: bool)
    requires Connected(st, Some(k)) && st.conns[k].session.None? && id != ""
    requires clean || id !in st.disk || st.disk[id] == map[]
    ensures Step(st, OnConnect(k, id, clean, None)) == Connecting(st, k, id, clean)
  {
    hide Plan, Exec, Do;
    var num := |st.sessions|;
    var present := !clean && id in st.disk;
    var second := if clean then Erase(id) else if present then Load(num) else Save(num);
    NothingReplayed(st, k, id, clean);
    IO.ThreeActions(st, [Attach(k, id, clean, None), second, Send(k, ConnAck(present))]);
    AttachDone(st, k, id, clean);
    SecondAction(st, k, id, clean);
    DoIs(Attached(st, k, id, clean).(disk := if clean then st.disk - {id} else st.disk[id := map[]]), num, id, k, ConnAck(present));
  }

  lemma NothingReplayed(st: State, k: ConnRef, id: ClientId, clean: bool)
    requires Connected(st, Some(k)) && st.conns[k].session.None? && id != ""
    requires clean || id !in st.disk || st.disk[id] == map[]
    ensures var num := |st.sessions|;
            var present := !clean && id in st.disk;
            Plan(st, OnConnect(k, id, clean, None))
            == [Attach(k, id, clean, None), if clean then Erase(id) else if present then Load(num) else Save(num), Send(k, ConnAck(present))]
  {
    NoKeys({});
    assert !clean && id in st.disk ==> st.disk[id].Keys == {};
    hide Ascending;
  }

  lemma LoadsNothing(st: State, num: nat)
    requires num < |st.sessions| && st.sessions[num].ref.id in st.disk && st.disk[st.sessions[num].ref.id] == map[]
    requires st.sessions[num].messages == map[]
    ensures DoLoad(st, num) == st && st.disk[st.sessions[num].ref.id := map[]] == st.disk
  {
    NoKeys({});
    hide Ascending;
    assert st.disk[st.sessions[num].ref.id].Keys == {};
    assert st.sessions[num := st.sessions[num].(messages := map[])] == st.sessions;
  }

  lemma SavesNothing(st: State, num: nat)
    requires num < |st.sessions| && st.sessions[num].messages == map[]
    ensures Saved(st, num) == st.(disk := st.disk[st.sessions[num].ref.id := map[]])
  {
    assert Snapshot(st.msgs, map[]) == map[];
  }

  // ---------- the scene ----------

  function Setup(q: byte): seq<Event> {
    [Accept, OnConnect(0, "c", false, None), OnSubscribe(0, 1, [P.FilterQos(A, q)]), Accept, OnConnect(1, "p", true, None)]
  }

  function Ready(q: byte): State {
    State(TreeOfA(q), map[], [], [SessionState(C0, Some(0), map[]), SessionState(P1, Some(1), map[])],
          [Conn("c", true, Some(C0), None), Conn("p", true, Some(P1), None)], 0, map["c" := map[]], [],
          [Sent(0, ConnAck(false), None), Sent(0, SubAck(1, [q]), None), Sent(1, ConnAck(false), None)], 5)
  }

  lemma RunMore(st: State, events: seq<Event>, e: Event)
    ensures Run(st, events + [e]) == Step(Run(st, events), e)
  {
    hide Step;
    assert (events + [e])[..|events|] == events;
  }

  lemma AcceptStep(st: State)
    ensures Step(st, Accept) == st.(conns := st.conns + [Conn("", true, None, None)], clock := st.clock + 1)
  {
    B.ExecSingle(st, Open);
  }

  lemma SubscribeStep(st: State, q: byte)
    requires st.topics == T.EMPTY_TREE && Connected(st, Some(0)) && st.conns[0].session == Some(C0)
    ensures Step(st, OnSubscribe(0, 1, [P.FilterQos(A, q)]))
         == st.(topics := TreeOfA(q), log := st.log + [Sent(0, SubAck(1, [q]), None)], clock := st.clock + 1)
  {
    SubscribePlanned(st, q);
    InsertA(q);
    hide I.Apply, Plan;
    var op := I.Subscribe(C0, A, q);
    B.ExecOne(st, [Index(op)], Send(0, SubAck(1, [q])));
    B.ExecSingle(st, Index(op));
  }

  lemma SubscribePlanned(st: State, q: byte)
    requires st.topics == T.EMPTY_TREE && Connected(st, Some(0)) && st.conns[0].session == Some(C0)
    ensures Plan(st, OnSubscribe(0, 1, [P.FilterQos(A, q)])) == [Index(I.Subscribe(C0, A, q))] + [Send(0, SubAck(1, [q]))]
  {
    SplitA();
    InsertA(q);
    hide I.Apply, T.Reverse, Split, ValidFilterName;
    var f := P.FilterQos(A, q);
    var op := I.Subscribe(C0, A, q);
    var e := OnSubscribe(0, 1, [f]);
    assert [f][..0] == [] && PlanFilters(st.topics, C0, [f][..0]) == [] && TopicsAfter(st.topics, C0, [f][..0]) == st.topics;
    assert SortByTime([]) == [];
    assert PlanSubscribe(st.topics, C0, f) == [Index(op)];
    assert PlanFilters(st.topics, C0, [f]) == [Index(op)];
    var codes := seq(|[f]|, i requires 0 <= i < |[f]| => P.SubackCode([f][i]));
    assert codes == [q];
  }

  /** Before the publisher connects. */
  function HalfReady(q: byte): State {
    State(TreeOfA(q), map[], [], [SessionState(C0, Some(0), map[])], [Conn("c", true, Some(C0), None)], 0, map["c" := map[]], [],
          [Sent(0, ConnAck(false), None), Sent(0, SubAck(1, [q]), None)], 3)
  }

  lemma FirstHalf(q: byte)
    ensures Run(Initial(map[]), Setup(q)[..3]) == HalfReady(q)
  {
    hide Step;
    var e := Setup(q);
    var st := Initial(map[]);
    AcceptStep(st);
    var s1 := st.(conns := [Conn("", true, None, None)], clock := 1);
    assert Step(st, e[0]) == s1;
    ConnectStep(s1, 0, "c", false);
    var s2 := Connecting(s1, 0, "c", false);
    SubscribeStep(s2, q);
    assert s2.conns == [Conn("c", true, Some(C0), None)] && s2.log == [Sent(0, ConnAck(false), None)];
    assert Step(s2, e[2]) == HalfReady(q);
    ThreeEvents(st, e[..3]);
  }

  lemma ThreeEvents(st: State, e: seq<Event>)
    requires |e| == 3
    ensures Run(st, e) == Step(Step(Step(st, e[0]), e[1]), e[2])
  {
    hide Step;
    RunMore(st, [], e[0]);
    RunMore(st, [e[0]], e[1]);
    RunMore(st, [e[0], e[1]], e[2]);
    assert [] + [e[0]] == [e[0]] && [e[0]] + [e[1]] == [e[0], e[1]] && [e[0], e[1]] + [e[2]] == e;
  }

  lemma SetupRuns(q: byte)
    ensures Run(Initial(map[]), Setup(q)) == Ready(q)
  {
    hide Step;
    var e := Setup(q);
    var st := HalfReady(q);
    FirstHalf(q);
    AcceptStep(st);
    var s4 := st.(conns := st.conns + [Conn("", true, None, None)], clock := 4);
    assert Step(st, e[3]) == s4;
    ConnectStep(s4, 1, "p", true);
    assert s4.disk - {"p"} == s4.disk;
    assert Connecting(s4, 1, "p", true) == Ready(q);
    RunMore(Initial(map[]), e[..3], e[3]);
    RunMore(Initial(map[]), e[..4], e[4]);
    assert e[..3] + [e[3]] == e[..4] && e[..4] + [e[4]] == e;
  }

  // ---------- a PUBLISH of "p" ----------

  /** The publisher is up, and the client's one entry is of its first session. */
  predicate Scene(st: State, q: byte) {
    && st.topics == TreeOfA(q) && |st.conns| >= 2 && |st.sessions| >= 2
    && st.conns[0].id == "c" && st.conns[0].session == Some(C0) && st.conns[0].will.None?
    && st.conns[1].connected && st.conns[1].session == Some(P1)
    && st.sessions[0].ref == C0 && st.sessions[1].ref == P1
  }

  function Pub(x: byte, q: byte, id: PacketId): Event {
    OnPublish(1, A, [x], P.PublishFlags(0, q, false), id)
  }

  /** What comes before the copy for the client. */
  function Head(x: byte, q: byte, id: PacketId): seq<Action> {
    (if q == 1 then [Send(1, PubAck(id))] else [Hold(1, id, A, [x]), Send(1, PubRec(id))]) + [Forward(1, id, q, A, [x])]
  }

  lemma PubPlan(st: State, x: byte, q: byte, id: PacketId)
    requires Scene(st, q) && (q == 1 || q == 2)
    ensures Plan(st, Pub(x, q, id)) == Head(x, q, id) + [Deliver(Subscription(C0, q), A, [x], q)]
  {
    SplitA();
    MatchA(q);
    hide T.Match, Recipients, Split;
    assert Deliveries([Subscription(C0, q)], A, [x], q) == [Deliver(Subscription(C0, q), A, [x], q)];
  }

  /** All that matters is left as it was: but for the log and the publisher's own session. */
  predicate Untouched(st: State, mid: State) {
    && mid == st.(msgs := mid.msgs, sessions := mid.sessions, log := mid.log)
    && st.msgs <= mid.msgs && |mid.sessions| == |st.sessions|
    && (forall n :: 0 <= n < |st.sessions| && n != 1 ==> mid.sessions[n] == st.sessions[n])
    && (|st.sessions| > 1 ==> mid.sessions[1].ref == st.sessions[1].ref && mid.sessions[1].client == st.sessions[1].client)
  }

  lemma HeadRuns(st: State, x: byte, q: byte, id: PacketId)
    requires Scene(st, q) && (q == 1 || q == 2)
    ensures Untouched(st, Exec(st, Head(x, q, id)))
  {
    hide Exec;
    if q == 1 {
      assert Head(x, q, id) == [Send(1, PubAck(id)), Forward(1, id, q, A, [x])];
      B.ExecTwo(st, Send(1, PubAck(id)), Forward(1, id, q, A, [x]));
    } else {
      assert Head(x, q, id) == [Hold(1, id, A, [x]), Send(1, PubRec(id)), Forward(1, id, q, A, [x])];
      IO.ThreeActions(st, Head(x, q, id));
    }
  }

  lemma PubStep(st: State, x: byte, q: byte, id: PacketId) returns (mid: State)
    requires Scene(st, q) && (q == 1 || q == 2)
    ensures Untouched(st, mid)
    ensures Step(st, Pub(x, q, id)) == DoDeliver(mid, Subscription(C0, q), A, [x], q).(clock := st.clock + 1)
  {
    mid := Exec(st, Head(x, q, id));
    PubPlan(st, x, q, id);
    HeadRuns(st, x, q, id);
    B.ExecOne(st, Head(x, q, id), Deliver(Subscription(C0, q), A, [x], q));
    hide Plan, Exec, Head, DoDeliver;
  }

  // ---------- the identifier of call 0 comes round while its message is stored ----------

  predicate Present(st: State) {
    |st.sessions| > 0 && |st.conns| > 0 && st.sessions[0].client == Some(0) && st.conns[0].connected
  }

  function Pubs(n: nat): seq<Event> {
    seq(n, i => Pub(0, 1, 1))
  }

  lemma PubWhilePresent(st: State, x: byte, id: PacketId)
    requires Scene(st, 1) && Present(st)
    ensures var st' := Step(st, Pub(x, 1, id));
            && Scene(st', 1) && Present(st') && st'.calls == st.calls + 1 && |st'.conns| == |st.conns| && |st'.sessions| == |st.sessions|
            && FR.MadeFor(st', S.IdOfCall(st.calls), st.calls)
            && st.msgs <= st'.msgs && (forall i :: i in st.store && i != S.IdOfCall(st.calls) ==> i in st'.store && st'.store[i] == st.store[i])
            && (S.IdOfCall(st.calls) in st.store ==> st'.store[S.IdOfCall(st.calls)] >= |st.msgs|)
  {
    var mid := PubStep(st, x, 1, id);
    hide S.IdOfCall, Step;
  }

  lemma PubsMore(n: nat)
    ensures Pubs(n + 1) == Pubs(n) + [Pub(0, 1, 1)]
  {
  }

  function Burnt(n: nat): State {
    Run(Initial(map[]), Setup(1) + Pubs(n))
  }

  lemma {:induction false} BurnMore(n: nat)
    ensures Burnt(n + 1) == Step(Burnt(n), Pub(0, 1, 1))
  {
    PubsMore(n);
    assert Setup(1) + Pubs(n + 1) == (Setup(1) + Pubs(n)) + [Pub(0, 1, 1)];
    RunMore(Initial(map[]), Setup(1) + Pubs(n), Pub(0, 1, 1));
  }

  predicate BurningScene(st: State, n: nat) {
    Scene(st, 1) && Present(st) && st.calls == n && |st.conns| == 2 && |st.sessions| == 2
  }

  /** The messages of the last 65534 calls are stored. */
  ghost predicate Stocked(st: State, n: nat) {
    forall c: nat :: c < n <= c + S.PERIOD ==> FR.MadeFor(st, S.IdOfCall(c), c)
  }

  /** What one more PUBLISH changes in the broker's store. */
  predicate OneStored(st: State, st': State, n: nat) {
    && FR.MadeFor(st', S.IdOfCall(n), n) && st.msgs <= st'.msgs
    && forall i :: i in st.store && i != S.IdOfCall(n) ==> i in st'.store && st'.store[i] == st.store[i]
  }

  lemma BurnOne(st: State, n: nat)
    requires BurningScene(st, n)
    ensures BurningScene(Step(st, Pub(0, 1, 1)), n + 1) && OneStored(st, Step(st, Pub(0, 1, 1)), n)
  {
    PubWhilePresent(st, 0, 1);
    hide S.IdOfCall, Step, Scene, Present, FR.MadeFor;
  }

  lemma StockedMore(st: State, n: nat)
    requires BurningScene(st, n) && Stocked(st, n)
    ensures BurningScene(Step(st, Pub(0, 1, 1)), n + 1) && Stocked(Step(st, Pub(0, 1, 1)), n + 1)
  {
    BurnOne(st, n);
    hide S.IdOfCall, Step, BurningScene;
    var st' := Step(st, Pub(0, 1, 1));
    forall c: nat | c < n + 1 <= c + S.PERIOD ensures FR.MadeFor(st', S.IdOfCall(c), c) {
      if c < n {
        S.FreshWithinPeriod(c, n);
        assert FR.MadeFor(st, S.IdOfCall(c), c);
      }
    }
  }

  lemma {:induction false} Burning(n: nat)
    ensures BurningScene(Burnt(n), n) && Stocked(Burnt(n), n)
    decreases n
  {
    hide Stocked, BurningScene, Burnt, Step;
    if n == 0 {
      NothingBurnt();
    } else {
      Burning(n - 1);
      BurnMore(n - 1);
      StockedMore(Burnt(n - 1), n - 1);
    }
  }

  lemma NothingBurnt()
    ensures BurningScene(Burnt(0), 0) && Stocked(Burnt(0), 0)
  {
    SetupRuns(1);
    assert Setup(1) + Pubs(0) == Setup(1);
  }

  lemma FirstId()
    ensures S.IdOfCall(0) == 1 && S.IdOfCall(S.PERIOD) == 1
  {
  }

  lemma FirstIsOverwritten(st: State)
    requires BurningScene(st, S.PERIOD) && Stocked(st, S.PERIOD)
    ensures var st' := Step(st, Pub(0, 1, 1));
            FR.MadeFor(st, 1, 0) && FR.MadeFor(st', 1, S.PERIOD) && st'.store[1] != st.store[1]
  {
    hide Step, S.IdOfCall, Scene, Present;
    FirstId();
    assert FR.MadeFor(st, S.IdOfCall(0), 0);
    hide Stocked;
    PubWhilePresent(st, 0, 1);
  }

  /** A client that acknowledges nothing is sent 65535 messages: the identifier of the last is that of the
      first, whose message is still stored, and is overwritten. */
  lemma ReusedIdentifierOverwrites()
    ensures var st := Burnt(S.PERIOD);
            var st' := Burnt(S.PERIOD + 1);
            FR.MadeFor(st, 1, 0) && FR.MadeFor(st', 1, S.PERIOD) && st'.store[1] != st.store[1]
  {
    hide Burnt, Step, BurningScene, Stocked, FR.MadeFor;
    Burning(S.PERIOD);
    BurnMore(S.PERIOD);
    FirstIsOverwritten(Burnt(S.PERIOD));
  }

  // ---------- two queued copies whose identifiers fall ----------

  /** The client's first session cannot be reached. */
  predicate Gone(st: State) {
    |st.sessions| > 0 && !Reached(st, C0) && (st.sessions[0].client.Some? ==> st.sessions[0].client.value == 0)
    && |st.conns| > 0 && !st.conns[0].connected
  }

  predicate SameStores(st: State, st': State) {
    && st'.msgs == st.msgs && st'.calls == st.calls && st'.disk == st.disk && st'.store == st.store
    && |st'.conns| == |st.conns| && |st'.sessions| == |st.sessions|
    && forall n :: 0 <= n < |st.sessions| ==> st'.sessions[n].messages == st.sessions[n].messages && st'.sessions[n].ref == st.sessions[n].ref
  }

  lemma LostStep(st: State, q: byte)
    requires Scene(st, q) && Present(st)
    ensures var st' := Step(st, OnError(0));
            Scene(st', q) && Gone(st') && SameStores(st, st') && st'.conns[0].session == Some(C0)
  {
    var op := I.UnsubscribeAll(C0, false);
    var mid := Do(st, Close(0));
    LeavingA(q, C0);
    assert Plan(st, OnError(0)) == [Close(0)] + [Index(op)];
    B.ExecOne(st, [Close(0)], Index(op));
    B.ExecSingle(st, Close(0));
    assert Step(st, OnError(0)) == DoIndex(mid, op).(clock := st.clock + 1);
    IndexedSessions(mid, op);
    hide DoIndex, I.Apply, Exec, Plan;
    IndexedRest(mid, op);
  }

  lemma IndexedRest(st: State, op: I.Op)
    ensures DoIndex(st, op) == st.(topics := I.Apply(st.topics, op), sessions := DoIndex(st, op).sessions)
  {
  }

  lemma PubWhileGone(st: State, x: byte, q: byte, id: PacketId)
    requires Scene(st, q) && Gone(st) && (q == 1 || q == 2)
    ensures var st' := Step(st, Pub(x, q, id));
            && Scene(st', q) && Gone(st') && st'.calls == st.calls + 1 && |st'.conns| == |st.conns| && |st'.sessions| == |st.sessions|
            && st.msgs <= st'.msgs && st'.store == st.store && st'.conns == st.conns
            && (exists m: MsgRef :: |st.msgs| <= m < |st'.msgs|
                  && StoredOf(st'.msgs[m]) == Stored(A, [x], q, 0, Unacknowledged)
                  && st'.sessions[0].messages == st.sessions[0].messages[S.IdOfCall(st.calls) := m])
            && st'.disk == st.disk["c" := Snapshot(st'.msgs, st'.sessions[0].messages)]
            && (forall n :: 1 < n < |st.sessions| ==> st'.sessions[n] == st.sessions[n])
  {
    var mid := PubStep(st, x, q, id);
    hide S.IdOfCall, Step, Snapshot;
    var m := |mid.msgs|;
    var st' := DoDeliver(mid, Subscription(C0, q), A, [x], q);
    assert StoredOf(st'.msgs[m]) == Stored(A, [x], q, 0, Unacknowledged);
  }

  lemma QueuedByPub(st: State, x: byte, id: PacketId)
    requires Scene(st, 1)
    ensures O.QueuedIn(st, Plan(st, Pub(x, 1, id)), C0) == [O.QueuedCopy(st.calls, A, [x], 1)]
  {
    PubPlan(st, x, 1, id);
    HeadRuns(st, x, 1, id);
    var head := Head(x, 1, id);
    var last := Deliver(Subscription(C0, 1), A, [x], 1);
    assert head[..1][..0] == [] && head[..1] == [head[0]];
    assert O.QueuedIn(st, head[..1], C0) == [];
    assert O.QueuedIn(st, head, C0) == [];
    assert (head + [last])[..|head|] == head;
    hide Plan, Exec;
  }

  function TwoQueued(): seq<Event> {
    [Pub(1, 1, 1), Pub(2, 1, 1), Accept]
  }

  function Lost(): State {
    Run(Initial(map[]), Setup(1) + Pubs(65533) + [OnError(0)])
  }

  lemma LostIsStep()
    ensures Lost() == Step(Burnt(65533), OnError(0))
  {
    RunMore(Initial(map[]), Setup(1) + Pubs(65533), OnError(0));
  }

  lemma TwoAreQueued(st: State)
    requires Scene(st, 1) && Gone(st) && st.calls == 65533 && |st.conns| == 2
    ensures var now := Run(st, TwoQueued());
            now.calls == 65535 && Connected(now, Some(2))
    ensures O.QueuedRun(st, TwoQueued(), C0) == [O.QueuedCopy(65533, A, [1], 1), O.QueuedCopy(65534, A, [2], 1)]
  {
    var e := TwoQueued();
    hide Step, Plan, Scene, O.QueuedIn;
    var s1 := Step(st, e[0]);
    PubWhileGone(st, 1, 1, 1);
    QueuedByPub(st, 1, 1);
    var s2 := Step(s1, e[1]);
    PubWhileGone(s1, 2, 1, 1);
    QueuedByPub(s1, 2, 1);
    AcceptStep(s2);
    QueuedByAccept(s2);
    ThreeEvents(st, e);
    assert e[..2][..1] == [e[0]] && e[..2][..1][..0] == [] && e[..2][1] == e[1] && e[..2][..1][0] == e[0];
    assert Run(st, e[..2][..1]) == s1 && Run(st, e[..2]) == s2;
    assert O.QueuedRun(st, e[..2][..1], C0) == [O.QueuedCopy(65533, A, [1], 1)];
  }

  lemma QueuedByAccept(st: State)
    ensures O.QueuedIn(st, Plan(st, Accept), C0) == []
  {
    assert [Open][..0] == [];
  }

  lemma {:induction false} OneConnectOfC(n: nat)
    ensures CO.ClientOnce(Setup(1) + Pubs(n), "c")
  {
    var e := Setup(1) + Pubs(n);
    forall i, j | 0 <= i < j < |e| ensures !(IsConnectOf(e[i], "c") && IsConnectOf(e[j], "c")) {
      if j >= 5 {
        assert e[j] == Pubs(n)[j - 5];
      }
    }
  }

  lemma WillOfNone(st: State)
    requires Scene(st, 1) && Present(st)
    ensures O.QueuedIn(Do(st, Close(0)), L.Rest(st, 0, false), C0) == []
  {
    var op := I.UnsubscribeAll(C0, false);
    assert L.Rest(st, 0, false) == [Index(op)];
    L.NothingQueued(Do(st, Close(0)), op, C0);
  }

  /** Written later, though published first. */
  ghost predicate WrittenBefore(log: seq<LogEntry>, from: nat, k: ConnRef, first: Packet, second: Packet) {
    exists a, b :: from <= a < b && R.SentAt(log, a, k, first) && R.SentAt(log, b, k, second)
  }

  lemma BackOutOfOrder(log: seq<LogEntry>, from: nat, k: ConnRef, p: O.QueuedCopy, q: O.QueuedCopy)
    requires R.SentBack(log, from, k, [p, q]) && p.call / S.PERIOD != q.call / S.PERIOD && R.PacketOf(p) != R.PacketOf(q)
    ensures WrittenBefore(log, from, k, R.PacketOf(q), R.PacketOf(p))
  {
    var qs := [p, q];
    assert R.SentOnce(log, from, k, R.PacketOf(qs[0])) && R.SentOnce(log, from, k, R.PacketOf(qs[1]));
    assert R.OrderedUpToWrap(log, from, k, qs[0], qs[1]);
    hide R.PacketOf;
    var a: nat :| from <= a && R.SentAt(log, a, k, R.PacketOf(p));
    var b: nat :| from <= b && R.SentAt(log, b, k, R.PacketOf(q));
    assert a != b;
  }

  const FIRST: O.QueuedCopy := O.QueuedCopy(65533, A, [1], 1)
  const SECOND: O.QueuedCopy := O.QueuedCopy(65534, A, [2], 1)

  lemma TwoPackets()
    ensures R.PacketOf(FIRST) == Publish(65534, A, [1], 0, 1, 0) && R.PacketOf(SECOND) == Publish(1, A, [2], 0, 1, 0)
  {
  }

  lemma BeforeLosing()
    ensures var st := Burnt(65533);
            && Scene(st, 1) && Present(st) && st.calls == 65533 && |st.conns| == 2 && IO.Up(st, 0, C0)
            && O.QueuedIn(Do(st, Close(0)), L.Rest(st, 0, false), C0) == []
  {
    Burning(65533);
    PresentIsUp(Burnt(65533));
    WillOfNone(Burnt(65533));
    hide Burnt, Do, L.Rest, O.QueuedIn, IO.Up, Stocked;
  }

  lemma AfterLosing()
    ensures Lost() == Step(Burnt(65533), OnError(0))
    ensures Run(Lost(), TwoQueued()).calls == 65535 && Connected(Run(Lost(), TwoQueued()), Some(2))
    ensures O.QueuedRun(Lost(), TwoQueued(), C0) == [FIRST, SECOND]
  {
    hide Burnt, Lost, Step, Run, O.QueuedRun, Connected, O.QueuedIn, IO.Up, L.Rest, TwoQueued, Scene;
    BeforeLosing();
    LostIsStep();
    LostStep(Burnt(65533), 1);
    TwoAreQueued(Lost());
  }

  lemma BackWithTwo()
    ensures var now := Run(Lost(), TwoQueued());
            R.SentBack(Step(now, OnConnect(2, "c", false, None)).log, |now.log|, 2, [FIRST, SECOND])
  {
    StayingAway();
    hide Step, Run, Scene, Burnt, Lost, O.QueuedRun, O.QueuedIn, R.SentBack, CO.ClientOnce, Stocked, L.Rest, IO.Up, Connected, Do, TwoQueued, Pubs, Setup, O.StaysAway;
    BeforeLosing();
    AfterLosing();
    OneConnectOfC(65533);
    BurntIsRun(65533);
    LostIsRun();
    CO.OnceLostAndBack(map[], Setup(1) + Pubs(65533), 0, C0, TwoQueued(), 2, None);
    assert [] + [FIRST, SECOND] == [FIRST, SECOND];
  }

  lemma StayingAway()
    ensures forall e :: 0 <= e < |TwoQueued()| ==> O.StaysAway(TwoQueued()[e], C0)
  {
  }

  /** A client is away when calls 65533 and 65534 of the sequencer queue a message each for it: back again,
      it is sent the second, under identifier 1, before the first, under identifier 65534. */
  lemma IdsFallAtTheWrap()
    ensures var now := Run(Lost(), TwoQueued());
            var log := Step(now, OnConnect(2, "c", false, None)).log;
            WrittenBefore(log, |now.log|, 2, Publish(1, A, [2], 0, 1, 0), Publish(65534, A, [1], 0, 1, 0))
  {
    hide Step, Run, Lost, TwoQueued, R.SentBack, R.PacketOf, WrittenBefore;
    TwoPackets();
    BackWithTwo();
    var now := Run(Lost(), TwoQueued());
    BackOutOfOrder(Step(now, OnConnect(2, "c", false, None)).log, |now.log|, 2, FIRST, SECOND);
  }

  lemma BurntIsRun(n: nat)
    ensures Burnt(n) == Run(Initial(map[]), Setup(1) + Pubs(n))
  {
  }

  lemma LostIsRun()
    ensures Lost() == Run(Initial(map[]), Setup(1) + Pubs(65533) + [OnError(0)])
  {
  }

  lemma PresentIsUp(st: State)
    requires Scene(st, 1) && Present(st)
    ensures IO.Up(st, 0, C0)
  {
  }

  // ---------- a client that comes back without subscribing again ----------

  function BackAgain(q: byte): seq<Event> {
    Setup(q) + [OnError(0), Accept, OnConnect(2, "c", false, None)]
  }

  lemma BackIsUp(st: State, q: byte)
    requires Scene(st, q) && Gone(st) && |st.sessions| == 2 && |st.conns| == 3 && st.conns[2] == Conn("", true, None, None)
    ensures var st' := Connecting(st, 2, "c", false);
            Scene(st', q) && IO.Up(st', 2, C2) && st'.sessions[0].client != Some(2)
  {
    hide TreeOfA;
  }

  lemma LosingAndBack(q: byte)
    ensures var s1 := Step(Ready(q), OnError(0));
            var s2 := Step(s1, Accept);
            var st := Step(s2, OnConnect(2, "c", false, None));
            && s1.disk == map["c" := map[]] && |s1.conns| == 2 && Scene(st, q) && IO.Up(st, 2, C2) && st.sessions[0].client != Some(2)
  {
    LostStep(Ready(q), q);
    hide Step, TreeOfA;
    var s1 := Step(Ready(q), OnError(0));
    AcceptStep(s1);
    var s2 := Step(s1, Accept);
    ConnectStep(s2, 2, "c", false);
    hide Connecting;
    BackIsUp(s2, q);
  }

  lemma RunOfBackAgain(q: byte)
    ensures var st := Run(Initial(map[]), BackAgain(q));
            Scene(st, q) && IO.Up(st, 2, C2) && st.sessions[0].client != Some(2)
  {
    hide Step, Run, Ready, Scene, Setup, IO.Up;
    SetupRuns(q);
    LosingAndBack(q);
    var e := Setup(q);
    RunMore(Initial(map[]), e, OnError(0));
    RunMore(Initial(map[]), e + [OnError(0)], Accept);
    RunMore(Initial(map[]), e + [OnError(0)] + [Accept], OnConnect(2, "c", false, None));
    assert e + [OnError(0)] + [Accept] + [OnConnect(2, "c", false, None)] == BackAgain(q);
  }

  function OpsOfBackAgain(q: byte): seq<I.Op> {
    [I.Begin("c", false), I.Subscribe(C0, A, q), I.Begin("p", true), I.UnsubscribeAll(C0, false), I.Begin("c", false)]
  }

  lemma OpsMore(actions: seq<Action>, a: Action)
    ensures N.OpsIn(actions + [a]) == N.OpsIn(actions) + N.OpOf(a)
  {
    assert (actions + [a])[..|actions|] == actions;
  }

  lemma OpsOfThree(a: Action, b: Action, c: Action)
    ensures N.OpsIn([a, b, c]) == N.OpOf(a) + N.OpOf(b) + N.OpOf(c)
  {
    assert N.OpsIn([]) == [];
    hide N.OpOf, N.OpsIn;
    assert [] + [a] == [a] && [a] + [b] == [a, b] && [a, b] + [c] == [a, b, c];
    OpsMore([], a);
    assert N.OpsIn([a]) == N.OpOf(a);
    OpsMore([a], b);
    OpsMore([a, b], c);
  }

  lemma OpsOfConnect(st: State, k: ConnRef, id: ClientId, clean: bool)
    requires Connected(st, Some(k)) && st.conns[k].session.None? && id != ""
    requires clean || id !in st.disk || st.disk[id] == map[]
    ensures N.OpsIn(Plan(st, OnConnect(k, id, clean, None))) == [I.Begin(id, clean)]
  {
    hide Plan, N.OpsIn;
    NothingReplayed(st, k, id, clean);
    var plan := Plan(st, OnConnect(k, id, clean, None));
    OpsOfThree(plan[0], plan[1], plan[2]);
  }

  lemma AllOpsMore(st: State, events: seq<Event>, e: Event)
    ensures N.AllOps(st, events + [e]) == N.AllOps(st, events) + N.OpsIn(Plan(Run(st, events), e))
  {
    assert (events + [e])[..|events|] == events;
  }

  lemma OpsOfAccept(st: State)
    ensures N.OpsIn(Plan(st, Accept)) == []
  {
    OpsMore([], Open);
    assert [] + [Open] == [Open];
  }

  lemma OpsOfSubscribe(st: State, q: byte)
    requires st.topics == T.EMPTY_TREE && Connected(st, Some(0)) && st.conns[0].session == Some(C0)
    ensures N.OpsIn(Plan(st, OnSubscribe(0, 1, [P.FilterQos(A, q)]))) == [I.Subscribe(C0, A, q)]
  {
    SubscribePlanned(st, q);
    OpsMore([], Index(I.Subscribe(C0, A, q)));
    OpsMore([Index(I.Subscribe(C0, A, q))], Send(0, SubAck(1, [q])));
    assert [] + [Index(I.Subscribe(C0, A, q))] == [Index(I.Subscribe(C0, A, q))];
    hide Plan;
  }

  lemma OpsOfLosing(st: State, q: byte)
    requires Scene(st, q) && Present(st)
    ensures N.OpsIn(Plan(st, OnError(0))) == [I.UnsubscribeAll(C0, false)]
  {
    var op := I.UnsubscribeAll(C0, false);
    assert Plan(st, OnError(0)) == [Close(0)] + [Index(op)];
    OpsMore([], Close(0));
    OpsMore([Close(0)], Index(op));
    assert [] + [Close(0)] == [Close(0)];
    hide Plan;
  }

  /** One more event of a run from the start, with the operations it brings. */
  lemma NextOps(events: seq<Event>, e: Event, st: State, ops: seq<I.Op>, more: seq<I.Op>)
    requires Run(Initial(map[]), events) == st && N.AllOps(Initial(map[]), events) == ops && N.OpsIn(Plan(st, e)) == more
    ensures Run(Initial(map[]), events + [e]) == Step(st, e) && N.AllOps(Initial(map[]), events + [e]) == ops + more
  {
    hide Step, Plan, N.OpsIn;
    RunMore(Initial(map[]), events, e);
    AllOpsMore(Initial(map[]), events, e);
  }

  lemma FirstStates(q: byte)
    ensures var st := Initial(map[]);
            var s1 := Step(st, Accept);
            var s2 := Step(s1, OnConnect(0, "c", false, None));
            && N.OpsIn(Plan(st, Accept)) == [] && N.OpsIn(Plan(s1, OnConnect(0, "c", false, None))) == [I.Begin("c", false)]
            && N.OpsIn(Plan(s2, OnSubscribe(0, 1, [P.FilterQos(A, q)]))) == [I.Subscribe(C0, A, q)]
  {
    var st := Initial(map[]);
    AcceptStep(st);
    OpsOfAccept(st);
    hide Step, Plan, N.OpsIn;
    var s1 := Step(st, Accept);
    ConnectStep(s1, 0, "c", false);
    OpsOfConnect(s1, 0, "c", false);
    OpsOfSubscribe(Connecting(s1, 0, "c", false), q);
  }

  lemma OpsOfFirstHalf(q: byte)
    ensures N.AllOps(Initial(map[]), Setup(q)[..3]) == [I.Begin("c", false), I.Subscribe(C0, A, q)]
  {
    hide Step, Plan, N.OpsIn;
    var e := Setup(q);
    var st := Initial(map[]);
    var s1 := Step(st, e[0]);
    FirstStates(q);
    assert Run(st, []) == st && N.AllOps(st, []) == [];
    hide Run, N.AllOps;
    NextOps([], e[0], st, [], []);
    NextOps([] + [e[0]], e[1], s1, [], [I.Begin("c", false)]);
    NextOps([] + [e[0]] + [e[1]], e[2], Step(s1, e[1]), [I.Begin("c", false)], [I.Subscribe(C0, A, q)]);
    assert [] + [e[0]] + [e[1]] + [e[2]] == e[..3];
  }

  lemma LaterStates(q: byte)
    ensures var s4 := Step(HalfReady(q), Accept);
            && N.OpsIn(Plan(HalfReady(q), Accept)) == [] && N.OpsIn(Plan(s4, OnConnect(1, "p", true, None))) == [I.Begin("p", true)]
  {
    AcceptStep(HalfReady(q));
    OpsOfAccept(HalfReady(q));
    hide Step, Plan, N.OpsIn, TreeOfA;
    OpsOfConnect(Step(HalfReady(q), Accept), 1, "p", true);
  }

  lemma OpsOfSetup(q: byte)
    ensures N.AllOps(Initial(map[]), Setup(q)) == OpsOfBackAgain(q)[..3]
  {
    hide Step, Plan, N.OpsIn, Run, N.AllOps, HalfReady;
    var e := Setup(q);
    FirstHalf(q);
    OpsOfFirstHalf(q);
    LaterStates(q);
    var ops := OpsOfBackAgain(q)[..2];
    assert ops == [I.Begin("c", false), I.Subscribe(C0, A, q)];
    NextOps(e[..3], e[3], HalfReady(q), ops, []);
    NextOps(e[..3] + [e[3]], e[4], Step(HalfReady(q), Accept), ops, [I.Begin("p", true)]);
    assert e[..3] + [e[3]] + [e[4]] == e && ops + [I.Begin("p", true)] == OpsOfBackAgain(q)[..3] && ops + [] == ops;
  }

  lemma OpsOfLosingAndBack(q: byte)
    ensures var s1 := Step(Ready(q), OnError(0));
            var s2 := Step(s1, Accept);
            && N.OpsIn(Plan(Ready(q), OnError(0))) == [I.UnsubscribeAll(C0, false)]
            && N.OpsIn(Plan(s1, Accept)) == [] && N.OpsIn(Plan(s2, OnConnect(2, "c", false, None))) == [I.Begin("c", false)]
  {
    var s1 := Step(Ready(q), OnError(0));
    LostStep(Ready(q), q);
    AcceptStep(s1);
    OpsOfLosing(Ready(q), q);
    OpsOfAccept(s1);
    hide Step, Plan, N.OpsIn;
    BackOps(s1, Step(s1, Accept));
  }

  lemma AllOpsOfBackAgain(q: byte)
    ensures N.AllOps(Initial(map[]), BackAgain(q)) == OpsOfBackAgain(q)
  {
    hide Step, Plan, N.OpsIn, Run, N.AllOps, Setup, Ready;
    SetupRuns(q);
    OpsOfSetup(q);
    OpsOfLosingAndBack(q);
    var s1 := Step(Ready(q), OnError(0));
    var e := Setup(q);
    var ops := OpsOfBackAgain(q);
    NextOps(e, OnError(0), Ready(q), ops[..3], [I.UnsubscribeAll(C0, false)]);
    NextOps(e + [OnError(0)], Accept, s1, ops[..4], []);
    NextOps(e + [OnError(0)] + [Accept], OnConnect(2, "c", false, None), Step(s1, Accept), ops[..4], [I.Begin("c", false)]);
    assert e + [OnError(0)] + [Accept] + [OnConnect(2, "c", false, None)] == BackAgain(q);
  }

  lemma BackOps(s1: State, s2: State)
    requires s2 == s1.(conns := s1.conns + [Conn("", true, None, None)], clock := s1.clock + 1) && |s1.conns| == 2
    requires s1.disk == map["c" := map[]]
    ensures N.OpsIn(Plan(s2, OnConnect(2, "c", false, None))) == [I.Begin("c", false)]
  {
    OpsOfConnect(s2, 2, "c", false);
    hide Plan, N.OpsIn;
  }

  /** The client holds "a", and the index is in step with that. */
  lemma OwedAfterBackAgain(q: byte)
    ensures I.SafeRun(OpsOfBackAgain(q)) && I.Owed(I.Recorded(OpsOfBackAgain(q)), [A], "c")
  {
    SplitA();
    hide I.Apply, Split, ValidFilterName;
    var ops := OpsOfBackAgain(q);
    assert ops[..0] == [] && ops[..4][..3] == ops[..3] && ops[..3][..2] == ops[..2] && ops[..2][..1] == ops[..1] && ops[..1][..0] == [];
    assert I.Recorded([]) == I.History(map[], map[]) && I.SafeRun([]);
    assert I.Recorded(ops[..1]) == I.Recorded([]) && I.SafeRun(ops[..1]);
    assert ops[..2][1] == I.Subscribe(C0, A, q) && I.SafeRun(ops[..2]);
    assert I.Recorded(ops[..2]) == I.Record(I.Recorded(ops[..1]), ops[1]);
    assert I.HeldBy(I.Recorded(ops[..2]), "c") == {[A]} && I.HeldBy(I.Recorded(ops[..2]), "p") == {};
    assert I.HeldBy(I.Recorded(ops[..3]), "c") == {[A]} && I.SafeRun(ops[..3]);
    assert I.HeldBy(I.Recorded(ops[..4]), "c") == {[A]} && I.SafeRun(ops[..4]);
    assert I.HeldBy(I.Recorded(ops), "c") == {[A]} && I.SafeRun(ops);
    assert M.Matches([A], [A]);
  }

  lemma NoneThrough(st: State, q: byte)
    requires SessionClient(st, 0) != Some(2)
    ensures Reaching.CountThrough(st, [Subscription(C0, q)], 2) == 0
  {
    assert Reaching.CountThrough(st, [Subscription(C0, q)][..0], 2) == 0;
  }

  lemma ReachedOtherwise(st: State, q: byte)
    requires Scene(st, q) && IO.Up(st, 2, C2) && st.sessions[0].client != Some(2)
    ensures st.topics == TreeOfA(q) && Connected(st, Some(2)) && SessionClient(st, 0) != Some(2)
  {
  }

  /** A persistent client subscribes to "a", loses its connection and comes back. It still holds "a", is owed
      what is published to "a", and is connected; it is sent nothing. */
  lemma ReconnectedIsSentNothing(q: byte, payload: Bytes, qos: byte, retain: bool)
    ensures var st := Run(Initial(map[]), BackAgain(q));
            var ops := N.AllOps(Initial(map[]), BackAgain(q));
            var log := Exec(st, PlanPublish(st.topics, A, payload, qos, retain, st.clock)).log;
            && I.SafeRun(ops) && I.Owed(N.Told(map[], BackAgain(q)), Split(A), "c")
            && IO.Up(st, 2, C2) && Reaching.SentTo(log, |st.log|, 2) == 0
  {
    hide Run, I.SafeRun, I.Recorded, I.Owed, N.AllOps, N.Told, Exec, PlanPublish, T.Match, Recipients, Split, Reaching.SentTo, Reaching.CountThrough,
         Scene, IO.Up, BackAgain, TreeOfA, ValidTopicName, ValidFilterName, Connected, Reaching.AllCopies;
    SplitA();
    MatchA(q);
    RunOfBackAgain(q);
    AllOpsOfBackAgain(q);
    OwedAfterBackAgain(q);
    N.ToldIsRecorded(map[], BackAgain(q));
    var st := Run(Initial(map[]), BackAgain(q));
    ReachedOtherwise(st, q);
    NoneThrough(st, q);
    Reaching.PublishSends(st, A, payload, qos, retain, 2);
  }

  // ---------- an older session object brings an acknowledged message back ----------

  /** The client's first session holds message object `m` under identifier 1, and it is unacknowledged. */
  predicate OldCopy(st: State, x: byte, m: MsgRef) {
    && |st.sessions| > 0 && 1 in st.sessions[0].messages && st.sessions[0].messages[1] == m && m < |st.msgs|
    && StoredOf(st.msgs[m]) == Stored(A, [x], 2, 0, Unacknowledged)
  }

  predicate InScene(st: State) {
    Scene(st, 2) && Gone(st) && st.calls == 1
  }

  function UntilQueued(x: byte): seq<Event> {
    Setup(2) + [OnError(0), Pub(x, 2, 7), Accept]
  }

  lemma FirstQueued(st: State, x: byte) returns (m: MsgRef)
    requires Scene(st, 2) && Gone(st) && st.calls == 0 && st.sessions[0].messages == map[] && st.disk == map["c" := map[]]
    ensures var st' := Step(st, Pub(x, 2, 7));
            && InScene(st') && OldCopy(st', x, m) && |st'.sessions| == |st.sessions| && |st'.conns| == |st.conns|
            && st'.disk == map["c" := map[1 := Stored(A, [x], 2, 0, Unacknowledged)]]
  {
    PubWhileGone(st, x, 2, 7);
    hide Step, Snapshot, StoredOf, Scene, Gone;
    var st' := Step(st, Pub(x, 2, 7));
    m :| |st.msgs| <= m < |st'.msgs| && StoredOf(st'.msgs[m]) == Stored(A, [x], 2, 0, Unacknowledged)
         && st'.sessions[0].messages == st.sessions[0].messages[S.IdOfCall(st.calls) := m];
    assert S.IdOfCall(0) == 1;
    SnapshotOfOne(st'.msgs, st'.sessions[0].messages, m);
  }

  lemma SnapshotOfOne(msgs: seq<ClientMessage>, messages: map<PacketId, MsgRef>, m: MsgRef)
    requires messages == map[1 := m] && m < |msgs|
    ensures Snapshot(msgs, messages) == map[1 := StoredOf(msgs[m])]
  {
  }

  lemma LostFromReady()
    ensures var s1 := Step(Ready(2), OnError(0));
            && Scene(s1, 2) && Gone(s1) && s1.calls == 0 && s1.sessions[0].messages == map[] && s1.disk == map["c" := map[]]
            && |s1.sessions| == 2 && |s1.conns| == 2
  {
    LostStep(Ready(2), 2);
    hide Step;
  }

  lemma RunUntilQueued(x: byte) returns (m: MsgRef)
    ensures var st := Run(Initial(map[]), UntilQueued(x));
            && InScene(st) && OldCopy(st, x, m) && |st.sessions| == 2
            && |st.conns| == 3 && st.conns[2] == Conn("", true, None, None)
            && st.disk == map["c" := map[1 := Stored(A, [x], 2, 0, Unacknowledged)]]
  {
    hide Step, StoredOf, Ready, Scene, Gone, Pub, Setup, Run, InScene, OldCopy;
    SetupRuns(2);
    LostFromReady();
    var e := Setup(2);
    var s1 := Step(Ready(2), OnError(0));
    m := FirstQueued(s1, x);
    var s2 := Step(s1, Pub(x, 2, 7));
    AcceptStep(s2);
    RunMore(Initial(map[]), e, OnError(0));
    RunMore(Initial(map[]), e + [OnError(0)], Pub(x, 2, 7));
    RunMore(Initial(map[]), e + [OnError(0)] + [Pub(x, 2, 7)], Accept);
    assert e + [OnError(0)] + [Pub(x, 2, 7)] + [Accept] == UntilQueued(x);
    SceneAfterAccept(s2, x, m);
  }

  lemma SceneAfterAccept(st: State, x: byte, m: MsgRef)
    requires InScene(st) && OldCopy(st, x, m)
    ensures InScene(Step(st, Accept)) && OldCopy(Step(st, Accept), x, m)
  {
    AcceptStep(st);
    hide Step;
  }

  /** The session is made, loaded with one message, and greeted. */
  function Filled(st: State, x: byte): State
    requires |st.conns| == 3
  {
    Attached(st, 2, "c", false).(msgs := st.msgs + [FromStored(Stored(A, [x], 2, 0, Unacknowledged))],
                                 sessions := st.sessions + [SessionState(SessionRef("c", |st.sessions|, false), Some(2), map[1 := |st.msgs|])])
  }

  function Greeted(st: State, x: byte): State
    requires |st.conns| == 3
  {
    Logged(Filled(st, x), Sent(2, ConnAck(true), None))
  }

  lemma LoadFills(st: State, x: byte)
    requires |st.sessions| == 2 && |st.conns| == 3
    requires st.disk == map["c" := map[1 := Stored(A, [x], 2, 0, Unacknowledged)]]
    ensures Do(Attached(st, 2, "c", false), Load(2)) == Filled(st, x)
  {
    hide Do, DoLoad, FromStored;
    var mid := Attached(st, 2, "c", false);
    DoIs(mid, 2, "c", 2, PingResp);
    LoadsOne(mid, 2, x);
    assert mid.sessions[2 := mid.sessions[2].(messages := map[1 := |st.msgs|])] == Filled(st, x).sessions;
  }

  lemma GreetedByHead(st: State, x: byte)
    requires |st.sessions| == 2 && |st.conns| == 3 && st.conns[2] == Conn("", true, None, None)
    requires st.disk == map["c" := map[1 := Stored(A, [x], 2, 0, Unacknowledged)]]
    ensures Exec(st, [Attach(2, "c", false, None), Load(2), Send(2, ConnAck(true))]) == Greeted(st, x)
  {
    hide Exec, Do, Filled, Attached;
    IO.ThreeActions(st, [Attach(2, "c", false, None), Load(2), Send(2, ConnAck(true))]);
    AttachDone(st, 2, "c", false);
    LoadFills(st, x);
    DoIs(Filled(st, x), 2, "c", 2, ConnAck(true));
  }

  lemma PlanOfBack(st: State, x: byte)
    requires |st.sessions| == 2 && |st.conns| == 3 && st.conns[2] == Conn("", true, None, None)
    requires st.disk == map["c" := map[1 := Stored(A, [x], 2, 0, Unacknowledged)]]
    ensures Plan(st, OnConnect(2, "c", false, None))
         == [Attach(2, "c", false, None), Load(2), Send(2, ConnAck(true))] + [Replay(2, 2, 1)]
  {
    OneKey(1);
    assert st.disk["c"].Keys == {1};
    hide Ascending;
  }

  /** Back again, with one message that was replayed. */
  predicate BackScene(st: State, x: byte, m: MsgRef, copy: MsgRef) {
    && InScene(st) && OldCopy(st, x, m) && IO.Up(st, 2, C2) && |st.conns| == 3 && st.conns[2].will.None?
    && copy < |st.msgs| && copy != m && 1 in st.store && st.store[1] == copy
    && |st.sessions| == 3 && st.sessions[2] == SessionState(C2, Some(2), map[1 := copy])
    && StoredOf(st.msgs[copy]) == Stored(A, [x], 2, 0, Unacknowledged)
    && st.disk.Keys == {"c"}
  }

  lemma StepOfBack(st: State, x: byte)
    requires |st.sessions| == 2 && |st.conns| == 3 && st.conns[2] == Conn("", true, None, None)
    requires st.disk == map["c" := map[1 := Stored(A, [x], 2, 0, Unacknowledged)]]
    ensures Step(st, OnConnect(2, "c", false, None)) == DoReplay(Greeted(st, x), 2, 2, 1).(clock := st.clock + 1)
  {
    hide Plan, Exec, Do, Greeted, DoReplay;
    var head := [Attach(2, "c", false, None), Load(2), Send(2, ConnAck(true))];
    PlanOfBack(st, x);
    GreetedByHead(st, x);
    B.ExecOne(st, head, Replay(2, 2, 1));
    DoIs(Greeted(st, x), 2, "c", 2, PingResp);
  }

  /** The same without what replaying brings. */
  predicate BeforeReplay(st: State, x: byte, m: MsgRef, copy: MsgRef) {
    && InScene(st) && OldCopy(st, x, m) && IO.Up(st, 2, C2) && |st.conns| == 3 && st.conns[2].will.None?
    && copy < |st.msgs| && copy != m
    && |st.sessions| == 3 && st.sessions[2] == SessionState(C2, Some(2), map[1 := copy])
    && StoredOf(st.msgs[copy]) == Stored(A, [x], 2, 0, Unacknowledged)
    && st.disk.Keys == {"c"}
  }

  lemma GreetedBeforeReplay(st: State, x: byte, m: MsgRef)
    requires InScene(st) && OldCopy(st, x, m) && |st.sessions| == 2 && |st.conns| == 3 && st.conns[2] == Conn("", true, None, None)
    requires st.disk.Keys == {"c"}
    ensures BeforeReplay(Greeted(st, x), x, m, |st.msgs|)
  {
    hide TreeOfA;
  }

  lemma ReplayedIsBack(st: State, x: byte, m: MsgRef, copy: MsgRef, t: int)
    requires BeforeReplay(st, x, m, copy)
    ensures BackScene(DoReplay(st, 2, 2, 1).(clock := t), x, m, copy)
  {
    hide DoReplay, TreeOfA;
    ReplaysOne(st, x, copy);
  }

  lemma BackWithOne(st: State, x: byte, m: MsgRef)
    requires InScene(st) && OldCopy(st, x, m) && |st.sessions| == 2 && |st.conns| == 3 && st.conns[2] == Conn("", true, None, None)
    requires st.disk == map["c" := map[1 := Stored(A, [x], 2, 0, Unacknowledged)]]
    ensures BackScene(Step(st, OnConnect(2, "c", false, None)), x, m, |st.msgs|)
  {
    hide Step, DoReplay, InScene, OldCopy, BackScene, BeforeReplay, Greeted;
    StepOfBack(st, x);
    GreetedBeforeReplay(st, x, m);
    ReplayedIsBack(Greeted(st, x), x, m, |st.msgs|, st.clock + 1);
  }

  lemma ReplaysOne(st: State, x: byte, copy: MsgRef)
    requires Connected(st, Some(2)) && |st.sessions| == 3 && st.sessions[2].messages == map[1 := copy] && copy < |st.msgs|
    requires StoredOf(st.msgs[copy]) == Stored(A, [x], 2, 0, Unacknowledged)
    ensures var st' := DoReplay(st, 2, 2, 1);
            && st' == st.(msgs := st'.msgs, store := st.store[1 := copy], retries := st'.retries, log := st'.log)
            && |st'.msgs| == |st.msgs| && (forall m :: 0 <= m < |st.msgs| && m != copy ==> st'.msgs[m] == st.msgs[m])
            && StoredOf(st'.msgs[copy]) == Stored(A, [x], 2, 0, Unacknowledged)
  {
  }

  lemma LoadsOne(st: State, num: nat, x: byte)
    requires num < |st.sessions| && st.sessions[num].ref.id == "c"
    requires st.disk == map["c" := map[1 := Stored(A, [x], 2, 0, Unacknowledged)]]
    ensures DoLoad(st, num) == st.(msgs := st.msgs + [FromStored(Stored(A, [x], 2, 0, Unacknowledged))],
                                   sessions := st.sessions[num := st.sessions[num].(messages := map[1 := |st.msgs|])])
  {
    OneKey(1);
    assert st.disk["c"].Keys == {1};
    LoadedOne(|st.msgs|, st.disk["c"]);
    hide Ascending, LoadedMap, LoadedMsgs, FromStored;
  }

  lemma LoadedOne(base: nat, stored: map<PacketId, Stored>)
    requires 1 in stored
    ensures LoadedMap(base, [1]) == map[1 := base] && LoadedMsgs(stored, [1]) == [FromStored(stored[1])]
  {
    var keys: seq<PacketId> := [1];
    assert keys[..0] == [];
    assert LoadedMap(base, keys[..0]) == map[];
    hide FromStored;
  }

  lemma PubRecWithOne(st: State, x: byte, m: MsgRef, copy: MsgRef)
    requires BackScene(st, x, m, copy)
    ensures var st' := Step(st, OnPubRec(2, 1));
            && InScene(st') && OldCopy(st', x, m) && IO.Up(st', 2, C2) && |st'.conns| == 3 && st'.conns[2].will.None?
            && st'.disk == map["c" := map[1 := Stored(A, [x], 2, 0, PubrecReceived)]]
  {
    var plan := [AckStored(1, PubrecReceived, false), AckSession(2, 1, PubrecReceived, false, true), Send(2, PubRel(1))];
    assert Plan(st, OnPubRec(2, 1)) == plan;
    IO.ThreeActions(st, plan);
    var s1 := DoAckStored(st, 1, PubrecReceived, false);
    assert StoredOf(s1.msgs[copy]) == Stored(A, [x], 2, 0, PubrecReceived);
    var s2 := AckedSession(s1, 2, 1, PubrecReceived, false);
    assert s2.sessions == st.sessions;
    SnapshotOfOne(s2.msgs, map[1 := copy], copy);
    hide Snapshot;
  }

  lemma QueuedThroughOld(st: State, x: byte, y: byte, m: MsgRef)
    requires InScene(st) && OldCopy(st, x, m) && |st.conns| == 3 && st.conns[2].will.None? && IO.Up(st, 2, C2)
    ensures var st' := Step(st, Pub(y, 2, 8));
            && "c" in st'.disk && 1 in st'.disk["c"] && st'.disk["c"][1] == Stored(A, [x], 2, 0, Unacknowledged)
            && st'.conns == st.conns && Scene(st', 2)
  {
    assert S.IdOfCall(1) == 2;
    PubWhileGone(st, y, 2, 8);
    hide Step, StoredOf, Scene, Gone, S.IdOfCall;
    var st' := Step(st, Pub(y, 2, 8));
    assert 1 in st'.sessions[0].messages && st'.sessions[0].messages[1] == m && st'.msgs[m] == st.msgs[m];
  }

  lemma SecondLoss(st: State)
    requires |st.conns| == 3 && st.conns[2].connected && st.conns[2].session == Some(C2) && st.conns[2].will.None?
    ensures var st' := Step(st, OnError(2));
            st'.disk == st.disk && |st'.conns| == 3
  {
    var op := I.UnsubscribeAll(C2, false);
    var mid := Do(st, Close(2));
    assert Plan(st, OnError(2)) == [Close(2)] + [Index(op)];
    B.ExecOne(st, [Close(2)], Index(op));
    B.ExecSingle(st, Close(2));
    assert Step(st, OnError(2)) == DoIndex(mid, op).(clock := st.clock + 1);
    hide DoIndex, I.Apply, Exec, Plan;
    IndexedRest(mid, op);
  }

  function UntilPubRec(x: byte): seq<Event> {
    UntilQueued(x) + [OnConnect(2, "c", false, None), OnPubRec(2, 1)]
  }

  function UntilLostAgain(x: byte, y: byte): seq<Event> {
    UntilPubRec(x) + [Pub(y, 2, 8), OnError(2), Accept]
  }

  lemma RunUntilPubRec(x: byte) returns (m: MsgRef)
    ensures var st := Run(Initial(map[]), UntilPubRec(x));
            && InScene(st) && OldCopy(st, x, m) && IO.Up(st, 2, C2) && |st.conns| == 3 && st.conns[2].will.None?
            && st.disk == map["c" := map[1 := Stored(A, [x], 2, 0, PubrecReceived)]]
  {
    hide Step, StoredOf, Run, InScene, OldCopy, UntilQueued, BackScene, IO.Up;
    m := RunUntilQueued(x);
    var e := UntilQueued(x);
    var st := Run(Initial(map[]), e);
    BackWithOne(st, x, m);
    PubRecWithOne(Step(st, OnConnect(2, "c", false, None)), x, m, |st.msgs|);
    RunMore(Initial(map[]), e, OnConnect(2, "c", false, None));
    RunMore(Initial(map[]), e + [OnConnect(2, "c", false, None)], OnPubRec(2, 1));
    assert e + [OnConnect(2, "c", false, None)] + [OnPubRec(2, 1)] == UntilPubRec(x);
  }

  lemma UpIsLive(st: State)
    requires IO.Up(st, 2, C2)
    ensures |st.conns| > 2 && st.conns[2].connected && st.conns[2].session == Some(C2)
  {
  }

  lemma RunUntilLostAgain(x: byte, y: byte)
    ensures var st := Run(Initial(map[]), UntilLostAgain(x, y));
            && "c" in st.disk && 1 in st.disk["c"] && st.disk["c"][1] == Stored(A, [x], 2, 0, Unacknowledged)
            && Connected(st, Some(3))
  {
    hide Step, StoredOf, Run, InScene, OldCopy, UntilPubRec, Scene, IO.Up, Pub;
    var m := RunUntilPubRec(x);
    var e := UntilPubRec(x);
    var st := Run(Initial(map[]), e);
    UpIsLive(st);
    QueuedThroughOld(st, x, y, m);
    var s1 := Step(st, Pub(y, 2, 8));
    SecondLoss(s1);
    AcceptStep(Step(s1, OnError(2)));
    RunMore(Initial(map[]), e, Pub(y, 2, 8));
    RunMore(Initial(map[]), e + [Pub(y, 2, 8)], OnError(2));
    RunMore(Initial(map[]), e + [Pub(y, 2, 8)] + [OnError(2)], Accept);
    assert e + [Pub(y, 2, 8)] + [OnError(2)] + [Accept] == UntilLostAgain(x, y);
  }

  lemma ReplayedAt(st: State, k: ConnRef, c: ClientId, m: Stored)
    requires Connected(st, Some(k)) && c != "" && c in st.disk && 1 in st.disk[c] && st.disk[c][1] == m
    requires m.qos > 0 && m.status.Unacknowledged?
    ensures exists j :: |st.log| <= j && R.SentAt(Step(st, OnConnect(k, c, false, None)).log, j, k, Publish(1, m.topic, m.payload, 0, m.qos, 0))
  {
    hide Step, Ascending, R.Replayed;
    var stored := st.disk[c];
    var keys := Ascending(stored.Keys, 0);
    var log := Step(st, OnConnect(k, c, false, None)).log;
    R.ReconnectReplays(st, k, c, None);
    R.AscendingIsSorted(stored.Keys, 0);
    var i :| 0 <= i < |keys| && keys[i] == 1;
    var j := R.ReplayedContains(stored, keys, i);
    var all := R.To(k, [ConnAck(true)] + R.Replayed(stored, keys));
    assert all[j + 1] == (k, Publish(1, m.topic, m.payload, 0, m.qos, 0));
    assert R.SentAt(log, |st.log| + j + 1, k, Publish(1, m.topic, m.payload, 0, m.qos, 0));
  }

  /** A message is queued for "c" through its first session, replayed when it comes back, and acknowledged
      with a PUBREC, which is in the session store. The client has not subscribed again, so the next message
      is queued through the first session too; saving that brings back its own copy of the first message,
      and the next reconnect publishes it again. */
  lemma PublishedAgainAfterPubRec(x: byte, y: byte)
    ensures Run(Initial(map[]), UntilPubRec(x)).disk == map["c" := map[1 := Stored(A, [x], 2, 0, PubrecReceived)]]
    ensures var st := Run(Initial(map[]), UntilLostAgain(x, y));
            && ST.Outstanding(st, "c", 1)
            && exists j :: |st.log| <= j
                 && R.SentAt(Step(st, OnConnect(3, "c", false, None)).log, j, 3, Publish(1, A, [x], 0, 2, 0))
  {
    hide Run, UntilPubRec, UntilLostAgain, Step;
    var m := RunUntilPubRec(x);
    RunUntilLostAgain(x, y);
    ReplayedAt(Run(Initial(map[]), UntilLostAgain(x, y)), 3, "c", Stored(A, [x], 2, 0, Unacknowledged));
  }
}

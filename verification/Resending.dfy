/** Retry loops: every PUBLISH above QoS 0 is stored with a loop of its own when it is written, and the loop
    writes it again at every second check, until it is acknowledged or its connection is gone. */
module Resending {
  import opened Base
  import opened Filters
  import opened Sessions
  import opened Delivery
  import opened BrokerInvariant
  import opened Wiring
  import FO = FanOut
  import H = Handshake
  import I = IndexSpec
  import IO = InboundOnce
  import O = Offline
  import P = Packets
  import R = Replay
  import S = Sequencer
  import T = TopicTree

  // ---------- what is written is stored, with a loop ----------

  /** The PUBLISH of a log entry is that of the message object which the broker's store holds under its
      identifier, made at or after call `base`, and a retry loop of it has just begun. */
  predicate Tracked(st: State, e: LogEntry, base: nat) {
    && e.Sent? && e.packet.Publish? && e.msg.Some? && e.msg.value < |st.msgs|
    && e.packet.id in st.store && st.store[e.packet.id] == e.msg.value
    && (var m := st.msgs[e.msg.value];
        && m.origin.Live? && base <= m.origin.call < st.calls && e.packet.id == S.IdOfCall(m.origin.call)
        && m == ClientMessage(Some(e.conn), e.packet.topic, e.packet.payload, e.packet.qos, e.packet.retain, Unacknowledged, m.origin))
    && exists l :: 0 <= l < |st.retries| && st.retries[l] == RetryLoop(e.packet.id, e.msg.value, Early)
  }

  predicate IsNumbered(e: LogEntry) {
    e.Sent? && e.packet.Publish? && e.packet.qos > 0
  }

  predicate AllTracked(st: State, from: nat, base: nat) {
    forall j :: from <= j < |st.log| && IsNumbered(st.log[j]) ==> Tracked(st, st.log[j], base)
  }

  /** Actions that write nothing but new messages, and touch no message that is there. */
  predicate Fresh(a: Action) {
    match a
    case Send(_, packet) => !packet.Publish?
    case AckStored(_, _, _) => false
    case AckSession(_, _, _, _, _) => false
    case Replay(_, _, _) => false
    case Retry(_) => false
    case _ => true
  }

  lemma NewCopyTracked(st: State, a: Action, base: nat)
    requires a.Deliver? && base <= st.calls
    ensures st.log <= Do(st, a).log && AllTracked(Do(st, a), |st.log|, base)
  {
    hide S.IdOfCall, Snapshot;
    var st' := Do(st, a);
    if |st'.log| > |st.log| && IsNumbered(st'.log[|st.log|]) {
      assert st'.retries[|st.retries|] == RetryLoop(S.IdOfCall(st.calls), |st.msgs|, Early);
      assert Tracked(st', st'.log[|st.log|], base);
    }
  }

  /** The same of a retained message (broker.go:380-394). */
  lemma NewRetainedTracked(st: State, a: Action, base: nat)
    requires a.DeliverRetained? && base <= st.calls
    ensures st.log <= Do(st, a).log && AllTracked(Do(st, a), |st.log|, base)
  {
    hide S.IdOfCall;
    var st' := Do(st, a);
    if |st'.log| > |st.log| && IsNumbered(st'.log[|st.log|]) {
      assert st'.retries[|st.retries|] == RetryLoop(S.IdOfCall(st.calls), |st.msgs|, Early);
      assert Tracked(st', st'.log[|st.log|], base);
    }
  }

  lemma OthersWriteNone(st: State, a: Action)
    requires Fresh(a) && !a.Deliver? && !a.DeliverRetained?
    ensures st.log <= Do(st, a).log && forall j :: |st.log| <= j < |Do(st, a).log| ==> !IsNumbered(Do(st, a).log[j])
  {
    hide S.IdOfCall, DoIndex, Saved, LoadedMap, LoadedMsgs, Ascending;
    match a {
      case Index(op) => H.IndexKeepsRest(st, op);
      case Save(num) => SavedKeepsRest(st, num);
      case _ =>
    }
  }

  lemma CopyKeeps(st: State, a: Action, id: PacketId)
    requires (a.Deliver? || a.DeliverRetained?) && (Do(st, a).calls > st.calls ==> S.IdOfCall(st.calls) != id)
    ensures st.msgs <= Do(st, a).msgs && st.retries <= Do(st, a).retries
    ensures id in st.store ==> id in Do(st, a).store && Do(st, a).store[id] == st.store[id]
  {
    hide S.IdOfCall, Snapshot;
  }

  /** What a fresh action leaves as it is, if it draws another identifier. */
  lemma FreshKeeps(st: State, a: Action, id: PacketId)
    requires Fresh(a) && (Do(st, a).calls > st.calls ==> S.IdOfCall(st.calls) != id)
    ensures st.msgs <= Do(st, a).msgs && st.retries <= Do(st, a).retries
    ensures id in st.store ==> id in Do(st, a).store && Do(st, a).store[id] == st.store[id]
  {
    if a.Deliver? || a.DeliverRetained? {
      CopyKeeps(st, a, id);
    } else {
      OthersKeep(st, a);
    }
  }

  lemma OthersKeep(st: State, a: Action)
    requires Fresh(a) && !a.Deliver? && !a.DeliverRetained?
    ensures st.msgs <= Do(st, a).msgs && Do(st, a).retries == st.retries && Do(st, a).store == st.store
  {
    hide S.IdOfCall, DoIndex, Saved, LoadedMap, LoadedMsgs, Ascending, Snapshot;
    match a {
      case Index(op) => H.IndexKeepsRest(st, op);
      case Save(num) => SavedKeepsRest(st, num);
      case _ =>
    }
  }

  lemma StillTracked(st: State, a: Action, e: LogEntry, base: nat)
    requires Fresh(a) && Tracked(st, e, base) && Do(st, a).calls <= base + S.PERIOD
    ensures Tracked(Do(st, a), e, base)
  {
    var call := st.msgs[e.msg.value].origin.call;
    if Do(st, a).calls > st.calls {
      S.FreshWithinPeriod(call, st.calls);
    }
    O.CallsGrow(st, a);
    FreshKeeps(st, a, e.packet.id);
    var l :| 0 <= l < |st.retries| && st.retries[l] == RetryLoop(e.packet.id, e.msg.value, Early);
    hide Do, S.IdOfCall;
    assert Do(st, a).retries[l] == st.retries[l];
  }

  lemma OneMoreTracked(st: State, a: Action, from: nat, base: nat)
    requires Fresh(a) && AllTracked(st, from, base) && base <= st.calls && Do(st, a).calls <= base + S.PERIOD && from <= |st.log|
    ensures AllTracked(Do(st, a), from, base) && st.log <= Do(st, a).log && base <= Do(st, a).calls
  {
    if a.Deliver? {
      NewCopyTracked(st, a, base);
    } else if a.DeliverRetained? {
      NewRetainedTracked(st, a, base);
    } else {
      OthersWriteNone(st, a);
    }
    O.CallsGrow(st, a);
    hide Do, Tracked, Fresh;
    var st' := Do(st, a);
    forall j | from <= j < |st'.log| && IsNumbered(st'.log[j]) ensures Tracked(st', st'.log[j], base) {
      if j < |st.log| {
        assert st'.log[j] == st.log[j];
        StillTracked(st, a, st.log[j], base);
      }
    }
  }

  predicate AllFresh(actions: seq<Action>) {
    forall i :: 0 <= i < |actions| ==> Fresh(actions[i])
  }

  lemma {:induction false} ExecTracked(st: State, actions: seq<Action>, from: nat, base: nat)
    requires AllFresh(actions) && AllTracked(st, from, base) && base <= st.calls && from <= |st.log|
    requires Exec(st, actions).calls <= base + S.PERIOD
    ensures AllTracked(Exec(st, actions), from, base) && st.log <= Exec(st, actions).log && base <= Exec(st, actions).calls
    decreases |actions|
  {
    if actions != [] {
      hide Do, AllTracked, Fresh;
      var n := |actions| - 1;
      var mid := Exec(st, actions[..n]);
      O.CallsGrow(mid, actions[n]);
      ExecTracked(st, actions[..n], from, base);
      OneMoreTracked(mid, actions[n], from, base);
    }
  }

  // ---------- the events that write new messages ----------

  lemma {:induction false} RetainedFresh(found: seq<T.Tree>, sub: Subscription)
    ensures AllFresh(RetainedDeliveries(found, sub))
  {
    if found != [] {
      RetainedFresh(found[..|found| - 1], sub);
    }
  }

  lemma {:induction false} FiltersFresh(topics: T.Tree, s: SessionRef, filters: seq<P.FilterQos>)
    ensures AllFresh(PlanFilters(topics, s, filters))
    decreases |filters|
  {
    hide I.Apply, T.Reverse, SortByTime, Split, ValidFilterName, RetainedDeliveries;
    if filters != [] {
      var n := |filters| - 1;
      FiltersFresh(topics, s, filters[..n]);
      var f := filters[n];
      var op := I.Subscribe(s, f.filter, f.qos);
      RetainedFresh(SortByTime(T.Reverse(I.Apply(TopicsAfter(topics, s, filters[..n]), op), Split(f.filter))), Subscription(s, f.qos));
    }
  }

  lemma PublishFresh(topics: T.Tree, topic: Bytes, payload: Bytes, qos: byte, retain: bool, clock: int)
    ensures AllFresh(PlanPublish(topics, topic, payload, qos, retain, clock))
  {
    hide T.Match, Recipients, Split;
  }

  lemma LeaveFresh(st: State, k: ConnRef, graceful: bool)
    requires k < |st.conns|
    ensures AllFresh(PlanLeave(st, k, graceful))
  {
    hide PlanPublish;
    if st.conns[k].session.Some? && st.conns[k].will.Some? {
      var w := st.conns[k].will.value;
      PublishFresh(I.Apply(st.topics, I.UnsubscribeAll(st.conns[k].session.value, graceful)), w.topic, w.payload, w.qos, w.retain, st.clock);
    }
  }

  /** Events that acknowledge nothing, replay nothing and are no check of a loop. */
  predicate WritesNew(e: Event) {
    !e.OnTick? && !e.OnPubAck? && !e.OnPubRec? && !e.OnPubRel? && !e.OnPubComp? && (e.OnConnect? ==> e.client == "")
  }

  lemma PlanFresh(st: State, e: Event)
    requires WritesNew(e)
    ensures AllFresh(Plan(st, e))
  {
    hide PlanPublish, PlanFilters, PlanLeave, PlanConnect, ValidTopicName;
    if !e.Accept? && Connected(st, Some(e.conn)) && st.conns[e.conn].session.Some? {
      var s := st.conns[e.conn].session.value;
      LeaveFresh(st, e.conn, true);
      LeaveFresh(st, e.conn, false);
      match e {
        case OnPublish(k, topic, payload, flags, id) => PublishFresh(st.topics, topic, payload, flags.qos, flags.retain, st.clock);
        case OnSubscribe(k, id, filters) => FiltersFresh(st.topics, s, filters);
        case _ =>
      }
    }
  }

  /** Whatever PUBLISH above QoS 0 is written for a PUBLISH, for a will, or for the retained messages of a
      SUBSCRIBE: afterwards its message is in the broker's store under its identifier, unacknowledged, with the
      fields that were written, for that connection, and a retry loop of it has begun. */
  lemma WrittenIsTracked(st: State, e: Event)
    requires WritesNew(e) && Step(st, e).calls <= st.calls + S.PERIOD
    ensures st.log <= Step(st, e).log && AllTracked(Step(st, e), |st.log|, st.calls)
  {
    hide Plan, Exec, AllFresh, Tracked;
    PlanFresh(st, e);
    ExecTracked(st, Plan(st, e), |st.log|, st.calls);
    TrackedAtAnyTime(Exec(st, Plan(st, e)), st.clock + 1, |st.log|, st.calls);
  }

  lemma TrackedAtAnyTime(st: State, t: int, from: nat, base: nat)
    requires AllTracked(st, from, base)
    ensures AllTracked(st.(clock := t), from, base)
  {
    var st' := st.(clock := t);
    forall j | from <= j < |st'.log| && IsNumbered(st'.log[j]) ensures Tracked(st', st'.log[j], base) {
      assert Tracked(st, st.log[j], base);
    }
  }

  // ---------- one check of a loop ----------

  /** What a second check writes: the PUBLISH again, marked as a duplicate above QoS 0 and with its RETAIN flag,
      while nothing has been answered; the PUBREL after a PUBREC; the PUBCOMP after a PUBREL. */
  function Again(k: ConnRef, id: PacketId, ref: MsgRef, m: ClientMessage): seq<LogEntry> {
    if m.status.Unacknowledged? then
      [Sent(k, Publish(id, m.topic, m.payload, if m.qos == 0 then 0 else 1, m.qos, m.retain), Some(ref))]
    else if m.status.PubrecReceived? then [Sent(k, PubRel(id), None)]
    else if m.status.PubrelReceived? then [Sent(k, PubComp(id), None)]
    else []
  }

  predicate Over(st: State, m: ClientMessage) {
    !Connected(st, m.client) || m.status.PubackReceived? || m.status.PubcompReceived?
  }

  /** A check of a loop changes this loop and the log only. A loop that has returned stays so and writes nothing;
      one whose connection is gone or whose message is completed returns; otherwise the first check writes
      nothing, and the second writes one packet, after which the loop is as before the first. */
  lemma Tick(st: State, l: nat)
    requires l < |st.retries| && st.retries[l].msg < |st.msgs|
    ensures var loop := st.retries[l];
            var m := st.msgs[loop.msg];
            Step(st, OnTick(l)) ==
            if loop.phase.Stopped? then st.(clock := st.clock + 1)
            else if Over(st, m) then st.(retries := st.retries[l := loop.(phase := Stopped)], clock := st.clock + 1)
            else if loop.phase.Early? then st.(retries := st.retries[l := loop.(phase := Late)], clock := st.clock + 1)
            else st.(retries := st.retries[l := loop.(phase := Early)],
                     log := st.log + Again(m.client.value, loop.id, loop.msg, m), clock := st.clock + 1)
  {
    OnlyRetry(st, l);
    hide Step, Exec, Plan;
    var m := st.msgs[st.retries[l].msg];
    match m.status
    case Unacknowledged =>
    case PubackReceived =>
    case PubrecReceived =>
    case PubrelReceived =>
    case PubcompReceived =>
  }

  lemma OnlyRetry(st: State, l: nat)
    ensures Step(st, OnTick(l)) == DoRetry(st, l).(clock := st.clock + 1)
  {
    assert Plan(st, OnTick(l)) == [Action.Retry(l)];
    assert [Action.Retry(l)][..0] == [] && Exec(st, []) == st;
    assert Exec(st, [Action.Retry(l)]) == DoRetry(st, l);
  }

  // ---------- over runs ----------

  /** Other actions leave a loop alone. */
  lemma LoopKept(st: State, a: Action, l: nat)
    requires l < |st.retries| && !(a.Retry? && a.loop == l)
    ensures l < |Do(st, a).retries| && Do(st, a).retries[l] == st.retries[l]
  {
    hide S.IdOfCall, DoIndex, Saved, Snapshot, RetryPacket, WithStatus, DoDeliver, LoadedMap, LoadedMsgs, Ascending;
    match a {
      case Save(num) => SavedKeepsRest(st, num);
      case Index(op) => H.IndexKeepsRest(st, op);
      case Deliver(sub, topic, payload, qos) => DeliverLoop(st, sub, topic, payload, qos);
      case AckSession(num, id, status, delete, save) => SavedKeepsRest(AckedSession(st, num, id, status, delete), num);
      case _ =>
    }
  }

  predicate NoTick(actions: seq<Action>, l: nat) {
    forall i :: 0 <= i < |actions| ==> !(actions[i].Retry? && actions[i].loop == l)
  }

  lemma {:induction false} ExecKeepsLoop(st: State, actions: seq<Action>, l: nat)
    requires l < |st.retries| && NoTick(actions, l)
    ensures l < |Exec(st, actions).retries| && Exec(st, actions).retries[l] == st.retries[l]
    decreases |actions|
  {
    if actions != [] {
      hide Do;
      ExecKeepsLoop(st, actions[..|actions| - 1], l);
      LoopKept(Exec(st, actions[..|actions| - 1]), actions[|actions| - 1], l);
    }
  }

  lemma PlanTicks(st: State, e: Event, l: nat)
    requires !(e.OnTick? && e.loop == l)
    ensures NoTick(Plan(st, e), l)
  {
    if e.OnTick? {
      assert Plan(st, e) == [Action.Retry(e.loop)];
    } else {
      NoRetryPlanned(st, e);
    }
  }

  predicate NoRetry(actions: seq<Action>) {
    forall i :: 0 <= i < |actions| ==> !actions[i].Retry?
  }

  lemma FreshIsNoRetry(actions: seq<Action>)
    requires AllFresh(actions)
    ensures NoRetry(actions)
  {
  }

  lemma NoRetryPlanned(st: State, e: Event)
    requires !e.OnTick?
    ensures NoRetry(Plan(st, e))
  {
    if WritesNew(e) {
      PlanFresh(st, e);
      FreshIsNoRetry(Plan(st, e));
    } else if Connected(st, Some(e.conn)) {
      AcksNoRetry(st, e);
      if e.OnConnect? {
        ConnectNoRetry(st, e.conn, e.client, e.clean, e.will);
      }
      hide NoRetry, PlanPacket, PlanConnect;
      assert NoRetry([Close(e.conn)]) by { OneNoRetry(Close(e.conn)); }
    }
  }

  lemma OneNoRetry(a: Action)
    requires !a.Retry?
    ensures NoRetry([a])
  {
  }

  lemma ConnectNoRetry(st: State, k: ConnRef, id: ClientId, clean: bool, will: Option<Message>)
    ensures NoRetry(PlanConnect(st, k, id, clean, will))
  {
    hide Ascending;
  }

  /** The acknowledgements of a client, and its CONNECT. */
  lemma AcksNoRetry(st: State, e: Event)
    requires !e.OnTick? && !WritesNew(e) && e.conn < |st.conns|
    ensures forall s :: NoRetry(PlanPacket(st, s, e))
  {
    hide PlanLeave, PlanInbound, PlanFilters, PlanConnect;
    if e.OnConnect? {
      ConnectNoRetry(st, e.conn, e.client, e.clean, e.will);
    }
  }

  lemma EventKeepsLoop(st: State, e: Event, l: nat)
    requires l < |st.retries| && !(e.OnTick? && e.loop == l)
    ensures l < |Step(st, e).retries| && Step(st, e).retries[l] == st.retries[l]
  {
    hide Plan, Exec, NoTick;
    PlanTicks(st, e, l);
    ExecKeepsLoop(st, Plan(st, e), l);
  }

  function Ticks(events: seq<Event>, l: nat): nat {
    if events == [] then 0
    else Ticks(events[..|events| - 1], l) + if events[|events| - 1] == OnTick(l) then 1 else 0
  }

  /** The loop's message is not completed, and its connection is there. */
  predicate Running(st: State, l: nat) {
    l < |st.retries| && st.retries[l].msg < |st.msgs| && !Over(st, st.msgs[st.retries[l].msg])
  }

  predicate AlwaysRunning(st: State, events: seq<Event>, l: nat) {
    forall i :: 0 <= i <= |events| ==> Running(Run(st, events[..i]), l)
  }

  /** After an even number of checks the loop is before its first, after an odd number before its second. */
  predicate InStep(st: State, now: State, l: nat, ticks: nat) {
    && l < |st.retries| && l < |now.retries|
    && now.retries[l] == st.retries[l].(phase := if ticks % 2 == 0 then Early else Late)
  }

  lemma OneTick(st: State, now: State, l: nat, ticks: nat)
    requires Running(now, l) && InStep(st, now, l, ticks)
    ensures var next := Step(now, OnTick(l));
            var loop := now.retries[l];
            var m := now.msgs[loop.msg];
            && InStep(st, next, l, ticks + 1)
            && next.log == now.log + if ticks % 2 == 0 then [] else Again(m.client.value, loop.id, loop.msg, m)
  {
    Tick(now, l);
    hide Step;
  }

  lemma AlwaysBefore(st: State, events: seq<Event>, l: nat, n: nat)
    requires AlwaysRunning(st, events, l) && n <= |events|
    ensures AlwaysRunning(st, events[..n], l) && Running(Run(st, events[..n]), l)
  {
    hide Run, Running;
    forall i | 0 <= i <= n ensures Running(Run(st, events[..n][..i]), l) {
      assert events[..n][..i] == events[..i];
    }
  }

  lemma {:induction false} LoopInStep(st: State, events: seq<Event>, l: nat)
    requires l < |st.retries| && st.retries[l].phase.Early? && AlwaysRunning(st, events, l)
    ensures InStep(st, Run(st, events), l, Ticks(events, l))
    decreases |events|
  {
    hide Step, Running, AlwaysRunning;
    if events != [] {
      var n := |events| - 1;
      AlwaysBefore(st, events, l, n);
      LoopInStep(st, events[..n], l);
      if events[n] == OnTick(l) {
        OneTick(st, Run(st, events[..n]), l, Ticks(events[..n], l));
      } else {
        EventKeepsLoop(Run(st, events[..n]), events[n], l);
      }
    }
  }

  /** Through every run in which the message is not completed and its connection stays, every second check of
      its loop writes what its status then asks for; the checks between write nothing. */
  lemma {:induction false} EverySecondCheck(st: State, events: seq<Event>, l: nat)
    requires l < |st.retries| && st.retries[l].phase.Early? && AlwaysRunning(st, events, l)
    ensures var now := Run(st, events);
            && Running(now, l) && now.retries[l].id == st.retries[l].id && now.retries[l].msg == st.retries[l].msg
            && var m := now.msgs[now.retries[l].msg];
               Step(now, OnTick(l)).log
               == now.log + if Ticks(events, l) % 2 == 0 then [] else Again(m.client.value, now.retries[l].id, now.retries[l].msg, m)
  {
    hide Step, AlwaysRunning, Again;
    AlwaysBefore(st, events, l, |events|);
    assert events[..|events|] == events;
    LoopInStep(st, events, l);
    OneTick(st, Run(st, events), l, Ticks(events, l));
  }

  // ---------- a message that was sent when it was made ----------

  /** A message object that is in no session's store changes in its status only. */
  lemma MessageKept(st: State, a: Action, m: MsgRef)
    requires SessionsOk(st) && m < |st.msgs| && st.msgs[m].origin.Live?
    ensures m < |Do(st, a).msgs| && Do(st, a).msgs[m] == st.msgs[m].(status := Do(st, a).msgs[m].status)
  {
    H.RefsGrow(st, a);
    hide S.IdOfCall, DoIndex, Saved, RetryPacket, Ascending, LoadedMap, DoDeliver, DoDeliverRetained;
    match a {
      case Save(num) => SavedKeepsRest(st, num);
      case Index(op) => H.IndexKeepsRest(st, op);
      case Deliver(sub, topic, payload, qos) => H.DeliverMessages(st, sub, topic, payload, qos);
      case DeliverRetained(sub, msg) => H.MessagesAppended(st, sub, msg);
      case AckSession(num, id, status, delete, save) => SavedKeepsRest(AckedSession(st, num, id, status, delete), num);
      case Replay(k, num, id) =>
        if num < |st.sessions| {
          assert SessionOk(st, num);
        }
      case _ =>
    }
  }

  lemma {:induction false} ExecKeepsMessage(st: State, actions: seq<Action>, m: MsgRef)
    requires Inv(st) && AllOk(st, actions) && m < |st.msgs| && st.msgs[m].origin.Live?
    ensures m < |Exec(st, actions).msgs| && Exec(st, actions).msgs[m] == st.msgs[m].(status := Exec(st, actions).msgs[m].status)
    decreases |actions|
  {
    if actions != [] {
      hide Do, Inv, ActionOk;
      var n := |actions| - 1;
      ExecKeepsMessage(st, actions[..n], m);
      ExecKeepsInv(st, actions[..n]);
      SessionsOf(Exec(st, actions[..n]));
      MessageKept(Exec(st, actions[..n]), actions[n], m);
    }
  }

  lemma {:induction false} RunKeepsMessage(st: State, events: seq<Event>, m: MsgRef)
    requires Inv(st) && m < |st.msgs| && st.msgs[m].origin.Live?
    ensures m < |Run(st, events).msgs| && Run(st, events).msgs[m] == st.msgs[m].(status := Run(st, events).msgs[m].status)
    decreases |events|
  {
    hide Inv, Plan, Exec, AllOk;
    if events != [] {
      var n := |events| - 1;
      RunKeepsMessage(st, events[..n], m);
      RunKeepsInv(st, events[..n]);
      PlanOk(Run(st, events[..n]), events[n]);
      ExecKeepsMessage(Run(st, events[..n]), Plan(Run(st, events[..n]), events[n]), m);
    }
  }

  /** The loop of a message that was sent when it was made, before its first check. */
  predicate Begun(st: State, l: nat) {
    && l < |st.retries| && st.retries[l].phase.Early? && st.retries[l].msg < |st.msgs|
    && st.msgs[st.retries[l].msg].origin.Live? && st.msgs[st.retries[l].msg].client.Some?
  }

  /** Its PUBLISH, once more. */
  function Repeated(st: State, l: nat): LogEntry
    requires Begun(st, l)
  {
    var loop := st.retries[l];
    var m := st.msgs[loop.msg];
    Sent(m.client.value, Publish(loop.id, m.topic, m.payload, if m.qos == 0 then 0 else 1, m.qos, m.retain), Some(loop.msg))
  }

  /** Nothing has been answered, and the connection is there. */
  predicate Unanswered(st: State, l: nat) {
    && l < |st.retries| && st.retries[l].msg < |st.msgs|
    && st.msgs[st.retries[l].msg].status.Unacknowledged? && Connected(st, st.msgs[st.retries[l].msg].client)
  }

  /** A check of the loop after a run in which the message stays unanswered writes the PUBLISH again, if an odd
      number of checks came before it, and nothing otherwise. */
  ghost predicate Repeats(st: State, l: nat, events: seq<Event>)
    requires Begun(st, l)
  {
    (forall i :: 0 <= i <= |events| ==> Unanswered(Run(st, events[..i]), l)) ==>
      Step(Run(st, events), OnTick(l)).log
      == Run(st, events).log + if Ticks(events, l) % 2 == 0 then [] else [Repeated(st, l)]
  }

  lemma UnansweredRuns(st: State, events: seq<Event>, l: nat)
    requires forall i :: 0 <= i <= |events| ==> Unanswered(Run(st, events[..i]), l)
    ensures AlwaysRunning(st, events, l) && Unanswered(Run(st, events), l)
  {
    hide Run;
    assert events[..|events|] == events;
    forall i | 0 <= i <= |events| ensures Running(Run(st, events[..i]), l) {
      assert Unanswered(Run(st, events[..i]), l);
    }
  }

  /** Through every run in which a message stays unanswered and its connection stays, every second check of its
      loop writes its PUBLISH again, to the same connection, under the same identifier, with the same fields
      and DUP set; the checks between write nothing. */
  lemma {:induction false} EverySecondTick(st: State, l: nat, events: seq<Event>)
    requires Inv(st) && Begun(st, l)
    ensures Repeats(st, l, events)
  {
    hide Inv, Step, AlwaysRunning, Running;
    if forall i :: 0 <= i <= |events| ==> Unanswered(Run(st, events[..i]), l) {
      UnansweredRuns(st, events, l);
      EverySecondCheck(st, events, l);
      RunKeepsMessage(st, events, st.retries[l].msg);
    }
  }

  /** So for every PUBLISH above QoS 0 that an event writes: there is a loop, every second check of which
      writes it again with DUP set, through every run in which it stays unanswered and its connection stays. */
  lemma {:induction false} WrittenIsRepeated(st: State, e: Event, j: nat) returns (l: nat)
    requires Inv(st) && WritesNew(e) && Step(st, e).calls <= st.calls + S.PERIOD
    requires |st.log| <= j < |Step(st, e).log| && IsNumbered(Step(st, e).log[j])
    ensures var now := Step(st, e);
            && Begun(now, l) && Repeated(now, l) == now.log[j].(packet := now.log[j].packet.(dup := 1))
            && forall events: seq<Event> :: Repeats(now, l, events)
  {
    WrittenIsTracked(st, e);
    StepKeepsInv(st, e);
    hide Step, Inv, S.IdOfCall, Repeats;
    var now := Step(st, e);
    assert Tracked(now, now.log[j], st.calls);
    l :| 0 <= l < |now.retries| && now.retries[l] == RetryLoop(now.log[j].packet.id, now.log[j].msg.value, Early);
    hide Tracked;
    forall events: seq<Event> ensures Repeats(now, l, events) {
      EverySecondTick(now, l, events);
    }
  }

  // ---------- replayed messages ----------

  /** A stored message is in the broker's store again, for this connection, and a retry loop of it has begun. */
  predicate Resumed(st: State, k: ConnRef, id: PacketId, m: Stored) {
    && id in st.store && st.store[id] < |st.msgs|
    && st.msgs[st.store[id]] == FromStored(m).(client := Some(k), retain := 0)
    && exists l :: 0 <= l < |st.retries| && st.retries[l] == RetryLoop(id, st.store[id], Early)
  }

  predicate ResumedUpTo(st: State, k: ConnRef, from: nat, stored: map<PacketId, Stored>, keys: seq<PacketId>, n: nat) {
    forall i :: 0 <= i < n <= |keys| && keys[i] in stored && stored[keys[i]].qos > 0 ==>
      Resumed(st, k, keys[i], stored[keys[i]]) && st.store[keys[i]] == from + i
  }

  lemma OneResumed(st: State, k: ConnRef, num: nat, from: nat, stored: map<PacketId, Stored>, keys: seq<PacketId>, n: nat)
    requires R.StrictlyAscending(keys) && n < |keys| && R.Midway(st, k, num, from, stored, keys, n)
    requires ResumedUpTo(st, k, from, stored, keys, n)
    ensures ResumedUpTo(DoReplay(st, k, num, keys[n]), k, from, stored, keys, n + 1)
  {
    R.LoadedMapAt(from, keys, n);
    assert keys[n] in keys;
    hide LoadedMap;
    var st' := DoReplay(st, k, num, keys[n]);
    forall i | 0 <= i < n + 1 && keys[i] in stored && stored[keys[i]].qos > 0
      ensures Resumed(st', k, keys[i], stored[keys[i]]) && st'.store[keys[i]] == from + i
    {
      if i < n {
        assert Resumed(st, k, keys[i], stored[keys[i]]);
        var l :| 0 <= l < |st.retries| && st.retries[l] == RetryLoop(keys[i], st.store[keys[i]], Early);
        assert st'.retries[l] == st.retries[l];
      } else {
        assert st'.retries[|st.retries|] == RetryLoop(keys[n], from + n, Early);
      }
    }
  }

  lemma {:induction false} AllResumed(st: State, k: ConnRef, num: nat, from: nat, stored: map<PacketId, Stored>, keys: seq<PacketId>, n: nat)
    requires R.StrictlyAscending(keys) && n <= |keys| && R.Midway(st, k, num, from, stored, keys, 0)
    ensures ResumedUpTo(Exec(st, R.Replays(k, num, keys)[..n]), k, from, stored, keys, n)
    decreases n
  {
    hide R.Midway, DoReplay, R.Replayed, Exec, R.Replays, FO.Wrote, R.To, Resumed, R.StrictlyAscending;
    if n > 0 {
      R.ReplaysLength(k, num, keys);
      AllResumed(st, k, num, from, stored, keys, n - 1);
      R.AllReplays(st, k, num, from, stored, keys, n - 1);
      R.ReplaysNext(st, k, num, keys, n);
      OneResumed(Exec(st, R.Replays(k, num, keys)[..n - 1]), k, num, from, stored, keys, n - 1);
    }
  }

  /** A CONNECT to a stored session: every message above QoS 0 that the session store holds, answered or not, is
      in the broker's store again, for the new connection, and a retry loop of it has begun. */
  lemma {:induction false} ReconnectResumes(st: State, k: ConnRef, id: ClientId, will: Option<Message>)
    requires Connected(st, Some(k)) && id != "" && id in st.disk
    ensures forall i :: i in st.disk[id] && st.disk[id][i].qos > 0 ==>
      Resumed(Step(st, OnConnect(k, id, false, will)), k, i, st.disk[id][i])
  {
    hide R.Midway, LoadedMap, Ascending, Exec, R.Replays, Do, Plan, Connected, R.StrictlyAscending;
    var stored := st.disk[id];
    var keys := Ascending(stored.Keys, 0);
    var num := |st.sessions|;
    R.AscendingIsSorted(stored.Keys, 0);
    var head := [Attach(k, id, false, will), Load(num), Send(k, ConnAck(true))];
    R.ConnectPlan(st, k, id, will);
    IO.ThreeActions(st, head);
    R.AfterLoad(st, k, id, will);
    var mid := Exec(st, head);
    H.ExecSplit(st, head + R.Replays(k, num, keys), 3);
    assert (head + R.Replays(k, num, keys))[..3] == head && (head + R.Replays(k, num, keys))[3..] == R.Replays(k, num, keys);
    R.ReplaysLength(k, num, keys);
    assert R.Replays(k, num, keys)[..|keys|] == R.Replays(k, num, keys);
    AllResumed(mid, k, num, |st.msgs|, stored, keys, |keys|);
    var done := Exec(mid, R.Replays(k, num, keys));
    forall i | i in stored && stored[i].qos > 0 ensures Resumed(done.(clock := st.clock + 1), k, i, stored[i]) {
      var h :| 0 <= h < |keys| && keys[h] == i;
      assert Resumed(done, k, keys[h], stored[keys[h]]);
    }
  }
}

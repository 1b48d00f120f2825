/** How a persistent client comes to be away: by a DISCONNECT, or by losing its connection, with its will. */
module Leaving {
  import opened Base
  import opened Sessions
  import opened Delivery
  import opened BrokerInvariant
  import opened Offline
  import opened Replay
  import I = IndexSpec
  import IO = InboundOnce
  import S = Sequencer
  import W = Wiring

  /** Up, persistent, without a connection beside this one, and with all its subscriptions made in it. */
  ghost predicate AboutToLeave(st: State, k: ConnRef, s: SessionRef) {
    && Inv(st) && IO.Up(st, k, s) && !s.clean && s.id != "" && OnlyLast(st, s)
    && forall j :: 0 <= j < |st.conns| && j != k && st.conns[j].connected ==> st.conns[j].id != s.id
  }

  /** What is done after the connection is closed. */
  function Rest(st: State, k: ConnRef, graceful: bool): seq<Action> {
    if k < |st.conns| then PlanLeave(st, k, graceful)[1..] else []
  }

  lemma ClosedIsAway(st: State, k: ConnRef, s: SessionRef)
    requires AboutToLeave(st, k, s)
    ensures AwayWith(Do(st, Close(k)), s, [], st.calls)
  {
    var mid := Do(st, Close(k));
    assert ConnOk(st, k);
    DoKeepsInv(st, Close(k));
    hide Inv;
    assert Away(mid, s);
  }

  lemma ClosingFirst(st: State, k: ConnRef, s: SessionRef, graceful: bool)
    requires IO.Up(st, k, s)
    ensures var mid := Do(st, Close(k));
            && k < |mid.conns| && PlanLeave(mid, k, graceful) == PlanLeave(st, k, graceful)
            && PlanLeave(st, k, graceful) == [Close(k)] + Rest(st, k, graceful)
            && Plan(st, if graceful then OnDisconnect(k) else OnError(k)) == PlanLeave(st, k, graceful)
  {
    hide PlanPublish;
  }

  /** After the rest of what leaving does, the will included, the client is away; what its own will has
      queued for it is held. */
  lemma LeavingIsAway(st: State, k: ConnRef, s: SessionRef, graceful: bool)
    requires AboutToLeave(st, k, s)
    requires Step(st, if graceful then OnDisconnect(k) else OnError(k)).calls <= st.calls + S.PERIOD
    ensures AwayWith(Step(st, if graceful then OnDisconnect(k) else OnError(k)), s,
                     QueuedIn(Do(st, Close(k)), Rest(st, k, graceful), s), st.calls)
  {
    hide AwayWith, Plan, PlanLeave, Exec, Do, AllHarmless, AllOk, Rest, Inv, OnlyLast, IO.Up, QueuedIn;
    var mid := Do(st, Close(k));
    var rest := Rest(st, k, graceful);
    ClosingFirst(st, k, s, graceful);
    ClosedIsAway(st, k, s);
    W.FirstThenRest(st, Close(k), rest);
    RestIsHarmless(st, k, s, graceful);
    ExecAway(mid, rest, s, [], st.calls);
    assert [] + QueuedIn(mid, rest, s) == QueuedIn(mid, rest, s);
    ClockOfAway(Exec(mid, rest), st.clock + 1, s, QueuedIn(mid, rest, s), st.calls);
  }

  lemma OnlyAction(st: State, a: Action)
    ensures Exec(st, [a]) == Do(st, a)
  {
    hide Do;
    assert [a][..0] == [] && Exec(st, []) == st;
  }

  lemma RestIsHarmless(st: State, k: ConnRef, s: SessionRef, graceful: bool)
    requires AboutToLeave(st, k, s)
    ensures var mid := Do(st, Close(k));
            AllHarmless(mid, Rest(st, k, graceful), s) && AllOk(mid, Rest(st, k, graceful))
  {
    hide PlanLeave, Plan, Inv, Harmless, ActionOk, Do, OnlyLast, I.RootOk;
    var mid := Do(st, Close(k));
    var plan := PlanLeave(st, k, graceful);
    ClosingFirst(st, k, s, graceful);
    ClosedIsAway(st, k, s);
    AwayParts(mid, s, st.calls);
    PlanOk(st, if graceful then OnDisconnect(k) else OnError(k));
    LeaveIsHarmless(mid, k, graceful, s);
    forall i | 0 <= i < |plan| ensures ActionOk(mid, plan[i]) {
      OkAfterClosing(st, k, plan[i]);
    }
  }

  lemma AwayParts(st: State, s: SessionRef, base: nat)
    requires AwayWith(st, s, [], base)
    ensures Inv(st) && OnlyLast(st, s)
  {
  }

  lemma OkAfterClosing(st: State, k: ConnRef, a: Action)
    requires ActionOk(st, a)
    ensures ActionOk(Do(st, Close(k)), a)
  {
  }

  /** A persistent client that disconnects is away, with nothing queued yet. */
  lemma DisconnectIsAway(st: State, k: ConnRef, s: SessionRef)
    requires AboutToLeave(st, k, s)
    ensures Step(st, OnDisconnect(k)).calls == st.calls
    ensures AwayWith(Step(st, OnDisconnect(k)), s, [], st.calls)
  {
    hide AwayWith, Inv, OnlyLast, PlanLeave, Plan, Exec, DoIndex, Rest, QueuedIn, IO.Up;
    var op := I.UnsubscribeAll(s, true);
    var mid := Do(st, Close(k));
    GracefulRest(st, k, s);
    ClosingFirst(st, k, s, true);
    W.FirstThenRest(st, Close(k), [Index(op)]);
    OnlyAction(mid, Index(op));
    IndexKeepsCalls(mid, op);
    LeavingIsAway(st, k, s, true);
    NothingQueued(mid, op, s);
  }

  lemma GracefulRest(st: State, k: ConnRef, s: SessionRef)
    requires IO.Up(st, k, s)
    ensures Rest(st, k, true) == [Index(I.UnsubscribeAll(s, true))]
  {
  }

  lemma NothingQueued(st: State, op: I.Op, s: SessionRef)
    ensures QueuedIn(st, [Index(op)], s) == []
  {
    assert [Index(op)][..0] == [];
  }

  /** A persistent client that loses its connection is away, with the copies of its own will that were
      queued for it. */
  lemma LostConnectionIsAway(st: State, k: ConnRef, s: SessionRef)
    requires AboutToLeave(st, k, s) && Step(st, OnError(k)).calls <= st.calls + S.PERIOD
    ensures AwayWith(Step(st, OnError(k)), s, QueuedIn(Do(st, Close(k)), Rest(st, k, false), s), st.calls)
  {
    LeavingIsAway(st, k, s, false);
  }

  /** Lost and back: from losing its connection, through a run without it, to its next CONNECT, a
      persistent client is sent every copy queued for it, its own will's included, exactly once, and in
      publish order up to the wrap of the sequencer. */
  lemma {:induction false} LostAndBack(st: State, k: ConnRef, s: SessionRef, events: seq<Event>, again: ConnRef, will: Option<Message>)
    requires AboutToLeave(st, k, s) && (forall e :: 0 <= e < |events| ==> StaysAway(events[e], s))
    requires Run(Step(st, OnError(k)), events).calls <= st.calls + S.PERIOD && Connected(Run(Step(st, OnError(k)), events), Some(again))
    ensures var lost := Step(st, OnError(k));
            var now := Run(lost, events);
            SentBack(Step(now, OnConnect(again, s.id, false, will)).log, |now.log|, again,
                     QueuedIn(Do(st, Close(k)), Rest(st, k, false), s) + QueuedRun(lost, events, s))
  {
    hide AboutToLeave, StaysAway, QueuedIn, QueuedRun, SentBack, Step, AwayWith, Connected, Do;
    var lost := Step(st, OnError(k));
    AllCallsGrow(lost, events);
    LostConnectionIsAway(st, k, s);
    ReconnectSendsQueued(lost, events, s, QueuedIn(Do(st, Close(k)), Rest(st, k, false), s), st.calls, again, will);
  }

  lemma {:induction false} AllCallsGrow(st: State, events: seq<Event>)
    ensures st.calls <= Run(st, events).calls
  {
    if events != [] {
      var n := |events| - 1;
      AllCallsGrow(st, events[..n]);
      RunCallsGrow(st, events, n);
      assert events[..n + 1] == events;
    }
  }
}

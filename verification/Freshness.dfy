/** Packet identifiers in the broker's store: when a new message meets an old one. */
module Freshness {
  import opened Base
  import opened Delivery
  import opened BrokerInvariant
  import opened Handshake
  import S = Sequencer
  import W = Wiring

  /** A message that was made for call `call`, and is stored now. */
  predicate MadeFor(st: State, id: PacketId, call: nat) {
    && id in st.store && st.store[id] < |st.msgs|
    && st.msgs[st.store[id]].origin == Live(call) && id == S.IdOfCall(call)
  }

  /** Except by replay, a message enters the broker's store under the identifier of the call made for it. */
  lemma StoreChange(st: State, a: Action)
    requires !a.Replay?
    ensures st.calls <= Do(st, a).calls <= st.calls + 1
    ensures forall id :: id in Do(st, a).store ==>
      (id in st.store && Do(st, a).store[id] == st.store[id])
      || (MadeFor(Do(st, a), id, st.calls) && Do(st, a).calls == st.calls + 1)
    ensures forall id :: id in st.store && id !in Do(st, a).store ==> a.AckStored? && a.id == id && a.delete
  {
    hide S.IdOfCall, DoIndex, Saved, Snapshot, RetryPacket;
    SavedKeepsRest(st, 0);
    match a {
      case Save(num) => SavedKeepsRest(st, num);
      case Index(op) => IndexKeepsRest(st, op);
      case Deliver(sub, topic, payload, qos) => DeliverStore(st, sub, topic, payload, qos);
      case AckSession(num, id, status, delete, save) => SavedKeepsRest(AckedSession(st, num, id, status, delete), num);
      case _ =>
    }
  }

  lemma DeliverStore(st: State, sub: Subscription, topic: Bytes, payload: Bytes, qos: byte)
    ensures var r := DoDeliver(st, sub, topic, payload, qos);
      && r.calls == st.calls + (if Min(sub.qos, qos) > 0 then 1 else 0)
      && (r.store == st.store
          || (r.calls == st.calls + 1 && r.store == st.store[S.IdOfCall(st.calls) := |st.msgs|]
              && MadeFor(r, S.IdOfCall(st.calls), st.calls)))
  {
    hide S.IdOfCall, Snapshot;
  }

  predicate NoReplay(actions: seq<Action>) {
    forall i :: 0 <= i < |actions| ==> !actions[i].Replay?
  }

  /** All of an event's changes to the store, at once. */
  lemma {:induction false} StoreChanges(st: State, actions: seq<Action>)
    requires NoReplay(actions)
    ensures st.calls <= Exec(st, actions).calls
    ensures forall id :: id in Exec(st, actions).store ==>
      (id in st.store && Exec(st, actions).store[id] == st.store[id])
      || exists k :: st.calls <= k < Exec(st, actions).calls && id == S.IdOfCall(k)
    decreases |actions|
  {
    if actions != [] {
      var n := |actions| - 1;
      var mid := Exec(st, actions[..n]);
      StoreChanges(st, actions[..n]);
      StoreChange(mid, actions[n]);
      hide Do;
      var last := Exec(st, actions);
      forall id | id in last.store
        ensures (id in st.store && last.store[id] == st.store[id]) || exists k :: st.calls <= k < last.calls && id == S.IdOfCall(k)
      {
        if !(id in mid.store && last.store[id] == mid.store[id]) {
          assert st.calls <= mid.calls < last.calls && id == S.IdOfCall(mid.calls);
        }
      }
    }
  }

  // ---------- runs without replay ----------

  /** Every stored message was sent when it was made. */
  predicate AllLive(st: State) {
    forall id :: id in st.store ==> st.store[id] < |st.msgs| && st.msgs[st.store[id]].origin.Live?
  }

  /** No stored message outlives 65533 identifiers drawn after its own, up to and including this action. */
  predicate AllYoung(st: State, a: Action) {
    forall id :: id in st.store && st.store[id] < |st.msgs| && st.msgs[st.store[id]].origin.Live? ==>
      Do(st, a).calls <= st.msgs[st.store[id]].origin.call + S.PERIOD
  }

  /** What is stored stays, under its identifier, unless an acknowledgement of that identifier deletes it. */
  predicate Preserved(st: State, a: Action) {
    forall id :: id in st.store ==>
      if id in Do(st, a).store then Do(st, a).store[id] == st.store[id] else a.AckStored? && a.id == id && a.delete
  }

  lemma LiveKept(st: State, a: Action)
    requires AllLive(st) && !a.Replay?
    ensures AllLive(Do(st, a))
  {
    StoreChange(st, a);
    RefsGrow(st, a);
    hide Do, S.IdOfCall;
  }

  lemma ActionPreserves(st: State, a: Action)
    requires StoreOk(st) && AllLive(st) && !a.Replay? && AllYoung(st, a)
    ensures Preserved(st, a)
  {
    StoreChange(st, a);
    hide Do, S.IdOfCall;
    forall id | id in st.store && id in Do(st, a).store ensures Do(st, a).store[id] == st.store[id] {
      var c := st.msgs[st.store[id]].origin.call;
      assert id == S.IdOfCall(c) && c < st.calls;
      if MadeFor(Do(st, a), id, st.calls) && Do(st, a).calls == st.calls + 1 {
        S.FreshWithinPeriod(c, st.calls);
      }
    }
  }

  /** At every action of a list: no replay, and the bound. */
  predicate AllFresh(st: State, actions: seq<Action>) {
    forall i :: 0 <= i < |actions| ==> !actions[i].Replay? && AllYoung(Exec(st, actions[..i]), actions[i])
  }

  predicate AllPreserved(st: State, actions: seq<Action>) {
    forall i :: 0 <= i < |actions| ==> Preserved(Exec(st, actions[..i]), actions[i])
  }

  lemma {:induction false} ExecPreserves(st: State, actions: seq<Action>)
    requires Inv(st) && AllOk(st, actions) && AllLive(st) && AllFresh(st, actions)
    ensures AllPreserved(st, actions) && AllLive(Exec(st, actions))
    decreases |actions|
  {
    hide Do, Inv, AllYoung, Preserved, AllLive, ActionOk;
    if actions != [] {
      var n := |actions| - 1;
      var mid := Exec(st, actions[..n]);
      forall i | 0 <= i < n ensures !actions[..n][i].Replay? && AllYoung(Exec(st, actions[..n][..i]), actions[..n][i]) {
        assert actions[..n][..i] == actions[..i];
      }
      ExecPreserves(st, actions[..n]);
      ExecKeepsInv(st, actions[..n]);
      StoreOkOf(mid);
      ActionPreserves(mid, actions[n]);
      LiveKept(mid, actions[n]);
      forall i | 0 <= i < |actions| ensures Preserved(Exec(st, actions[..i]), actions[i]) {
        if i < n {
          assert actions[..n][..i] == actions[..i];
          assert Preserved(Exec(st, actions[..n][..i]), actions[..n][i]);
        }
      }
    }
  }

  lemma StoreOkOf(st: State)
    requires Inv(st)
    ensures StoreOk(st)
  {
  }

  /** The n-th event of a run from the start, and the actions that make it up. */
  predicate FreshEvent(disk: Disk, events: seq<Event>, n: nat)
    requires n < |events|
  {
    var st := Run(Initial(disk), events[..n]);
    AllFresh(st, Plan(st, events[n]))
  }

  predicate PreservingEvent(disk: Disk, events: seq<Event>, n: nat)
    requires n < |events|
  {
    var st := Run(Initial(disk), events[..n]);
    AllPreserved(st, Plan(st, events[n]))
  }

  lemma SameEvent(disk: Disk, events: seq<Event>, m: nat, n: nat)
    requires n < m <= |events|
    ensures FreshEvent(disk, events[..m], n) == FreshEvent(disk, events, n)
    ensures PreservingEvent(disk, events[..m], n) == PreservingEvent(disk, events, n)
  {
    hide Run, Plan, AllFresh, AllPreserved;
    assert events[..m][..n] == events[..n];
  }

  lemma InitiallyLive(disk: Disk)
    ensures AllLive(Run(Initial(disk), []))
  {
  }

  lemma LastEvent(disk: Disk, events: seq<Event>)
    requires events != [] && FreshEvent(disk, events, |events| - 1) && AllLive(Run(Initial(disk), events[..|events| - 1]))
    ensures PreservingEvent(disk, events, |events| - 1) && AllLive(Run(Initial(disk), events))
  {
    hide Plan, Exec, Inv, AllFresh, AllPreserved, AllOk;
    var mid := Run(Initial(disk), events[..|events| - 1]);
    InitiallyInv(disk);
    RunKeepsInv(Initial(disk), events[..|events| - 1]);
    PlanOk(mid, events[|events| - 1]);
    ExecPreserves(mid, Plan(mid, events[|events| - 1]));
  }

  /** Never overwritten: over every run in which no session is replayed and no stored message outlives
      65533 further identifiers, no action puts another message in the place of a stored one; it goes only
      when it is acknowledged. */
  lemma {:induction false} NeverOverwritten(disk: Disk, events: seq<Event>)
    requires forall n :: 0 <= n < |events| ==> FreshEvent(disk, events, n)
    ensures forall n :: 0 <= n < |events| ==> PreservingEvent(disk, events, n)
    ensures AllLive(Run(Initial(disk), events))
    decreases |events|
  {
    hide FreshEvent, PreservingEvent, AllLive, Run;
    if events == [] {
      InitiallyLive(disk);
    } else {
      var m := |events| - 1;
      forall n | 0 <= n < m ensures FreshEvent(disk, events[..m], n) {
        SameEvent(disk, events, m, n);
      }
      NeverOverwritten(disk, events[..m]);
      LastEvent(disk, events);
      forall n | 0 <= n < |events| ensures PreservingEvent(disk, events, n) {
        if n < m {
          SameEvent(disk, events, m, n);
        }
      }
    }
  }

  /** The next identifier is that of a message sent earlier exactly when a multiple of 65534 calls
      lies between the two: the bound above is sharp. */
  lemma NextIdTakenIff(st: State, id: PacketId)
    requires StoreOk(st) && id in st.store && st.msgs[st.store[id]].origin.Live?
    ensures S.IdOfCall(st.calls) == id <==> (st.calls - st.msgs[st.store[id]].origin.call) % S.PERIOD == 0
  {
    S.SameIdIff(st.msgs[st.store[id]].origin.call, st.calls);
  }

  /** Only a CONNECT to a persistent session that the session store knows replays anything. */
  lemma ReplayOnlyOnReconnect(st: State, e: Event)
    requires e.OnConnect? ==> e.clean || e.client !in st.disk
    ensures NoReplay(Plan(st, e))
  {
    hide PlanConnect;
    W.PlanIsPlain(st, e);
    if W.Connects(st, e) {
      NothingToReplay(st, e);
    }
  }

  lemma NothingToReplay(st: State, e: Event)
    requires e.OnConnect? && (e.clean || e.client !in st.disk)
    ensures NoReplay(PlanConnect(st, e.conn, e.client, e.clean, e.will))
  {
    hide Ascending;
  }
}

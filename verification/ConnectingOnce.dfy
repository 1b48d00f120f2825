/** Clients that make one CONNECT: all their entries are of their one session object, so that what is proved
    of such a situation holds of every run in which it is so. */
module ConnectingOnce {
  import opened Base
  import opened Filters
  import opened Sessions
  import opened Delivery
  import opened BrokerInvariant
  import opened Wiring
  import I = IndexSpec
  import IO = InboundOnce
  import L = Leaving
  import N = ToldHistory
  import O = Offline
  import R = Replay
  import Reaching
  import S = Sequencer
  import T = TopicTree

  predicate IsConnectOn(e: Event, k: ConnRef) {
    e.OnConnect? && e.conn == k
  }

  predicate ClientOnce(events: seq<Event>, c: ClientId) {
    forall i, j :: 0 <= i < j < |events| ==> !(IsConnectOf(events[i], c) && IsConnectOf(events[j], c))
  }

  predicate ConnOnce(events: seq<Event>, k: ConnRef) {
    forall i, j :: 0 <= i < j < |events| ==> !(IsConnectOn(events[i], k) && IsConnectOn(events[j], k))
  }

  // ---------- session objects of a client, and those reached through a connection ----------

  predicate OfClient(st: State, n: nat, c: ClientId) {
    n < |st.sessions| && st.sessions[n].ref.id == c
  }

  predicate ReachedBy(st: State, n: nat, k: ConnRef) {
    n < |st.sessions| && st.sessions[n].client == Some(k)
  }

  /** Whatever session objects there are after the actions of an event were there before, but for the one
      that a CONNECT makes. */
  lemma {:induction false} ExecMakesNone(st: State, actions: seq<Action>, n: nat, c: ClientId, k: ConnRef)
    requires forall i :: 0 <= i < |actions| ==> !actions[i].Attach?
    ensures |Exec(st, actions).sessions| == |st.sessions|
    ensures OfClient(Exec(st, actions), n, c) ==> OfClient(st, n, c)
    ensures ReachedBy(Exec(st, actions), n, k) ==> ReachedBy(st, n, k)
    decreases |actions|
  {
    hide Do;
    if actions != [] {
      var m := |actions| - 1;
      var mid := Exec(st, actions[..m]);
      ExecMakesNone(st, actions[..m], n, c, k);
      AsManySessions(mid, actions[m]);
      SessionsPersist(mid, actions[m]);
      if n < |mid.sessions| {
        ClientOrNone(mid, actions[m], n);
      }
    }
  }

  lemma AttachMakesOne(st: State, a: Action, n: nat, c: ClientId, k: ConnRef)
    requires a.Attach?
    ensures |Do(st, a).sessions| <= |st.sessions| + 1
    ensures OfClient(Do(st, a), n, c) ==> OfClient(st, n, c) || (n == |st.sessions| && a.client == c)
    ensures ReachedBy(Do(st, a), n, k) ==> ReachedBy(st, n, k) || (n == |st.sessions| && a.conn == k)
  {
  }

  lemma StepMakesOne(st: State, e: Event, n: nat, c: ClientId, k: ConnRef)
    ensures OfClient(Step(st, e), n, c) ==> OfClient(st, n, c) || (n == |st.sessions| && IsConnectOf(e, c))
    ensures ReachedBy(Step(st, e), n, k) ==> ReachedBy(st, n, k) || (n == |st.sessions| && IsConnectOn(e, k))
  {
    hide Do, Plan, PlanConnect, Exec, AllPlain;
    PlanIsPlain(st, e);
    var plan := Plan(st, e);
    if Connects(st, e) {
      var first := Attach(e.conn, e.client, e.clean, e.will);
      ConnectAttaches(st, e.conn, e.client, e.clean, e.will);
      AttachMakesOne(st, first, n, c, k);
      FirstThenRest(st, first, plan[1..]);
      ExecMakesNone(Do(st, first), plan[1..], n, c, k);
    } else {
      PlainMakesNone(st, plan, n, c, k);
    }
  }

  lemma PlainMakesNone(st: State, actions: seq<Action>, n: nat, c: ClientId, k: ConnRef)
    requires AllPlain(actions)
    ensures OfClient(Exec(st, actions), n, c) ==> OfClient(st, n, c)
    ensures ReachedBy(Exec(st, actions), n, k) ==> ReachedBy(st, n, k)
  {
    ExecMakesNone(st, actions, n, c, k);
  }

  lemma {:induction false} NoneWithoutConnect(disk: Disk, events: seq<Event>, n: nat, c: ClientId, k: ConnRef)
    ensures (forall i :: 0 <= i < |events| ==> !IsConnectOf(events[i], c)) ==> !OfClient(Run(Initial(disk), events), n, c)
    ensures (forall i :: 0 <= i < |events| ==> !IsConnectOn(events[i], k)) ==> !ReachedBy(Run(Initial(disk), events), n, k)
    decreases |events|
  {
    hide Step;
    if events != [] {
      var m := |events| - 1;
      NoneWithoutConnect(disk, events[..m], n, c, k);
      StepMakesOne(Run(Initial(disk), events[..m]), events[m], n, c, k);
    }
  }

  /** One CONNECT, one session object. */
  lemma {:induction false} OneOfClient(disk: Disk, events: seq<Event>, c: ClientId, i: nat, j: nat)
    requires ClientOnce(events, c) && OfClient(Run(Initial(disk), events), i, c) && OfClient(Run(Initial(disk), events), j, c)
    ensures i == j
    decreases |events|
  {
    hide Step;
    if events != [] {
      var m := |events| - 1;
      var mid := Run(Initial(disk), events[..m]);
      StepMakesOne(mid, events[m], i, c, 0);
      StepMakesOne(mid, events[m], j, c, 0);
      if IsConnectOf(events[m], c) {
        NoneWithoutConnect(disk, events[..m], i, c, 0);
        NoneWithoutConnect(disk, events[..m], j, c, 0);
      } else {
        OneOfClient(disk, events[..m], c, i, j);
      }
    }
  }

  lemma {:induction false} OneReached(disk: Disk, events: seq<Event>, k: ConnRef, i: nat, j: nat)
    requires ConnOnce(events, k) && ReachedBy(Run(Initial(disk), events), i, k) && ReachedBy(Run(Initial(disk), events), j, k)
    ensures i == j
    decreases |events|
  {
    hide Step;
    if events != [] {
      var m := |events| - 1;
      var mid := Run(Initial(disk), events[..m]);
      StepMakesOne(mid, events[m], i, "", k);
      StepMakesOne(mid, events[m], j, "", k);
      if IsConnectOn(events[m], k) {
        NoneWithoutConnect(disk, events[..m], i, "", k);
        NoneWithoutConnect(disk, events[..m], j, "", k);
      } else {
        OneReached(disk, events[..m], k, i, j);
      }
    }
  }

  // ---------- connections with a client id ----------

  /** A connection gets its client id together with its session. */
  predicate Named(st: State) {
    forall k :: 0 <= k < |st.conns| && st.conns[k].id != "" ==> st.conns[k].session.Some?
  }

  lemma NamedKept(st: State, a: Action)
    requires Named(st)
    ensures Named(Do(st, a))
  {
    ConnsOfDo(st, a);
    if !(a.Open? || a.Attach? || a.Close?) {
      hide Do;
    }
  }

  lemma {:induction false} ExecNamed(st: State, actions: seq<Action>)
    requires Named(st)
    ensures Named(Exec(st, actions))
  {
    if actions != [] {
      ExecNamed(st, actions[..|actions| - 1]);
      NamedKept(Exec(st, actions[..|actions| - 1]), actions[|actions| - 1]);
    }
  }

  lemma {:induction false} RunNamed(disk: Disk, events: seq<Event>)
    ensures Named(Run(Initial(disk), events))
  {
    if events != [] {
      hide Plan, Exec;
      var mid := Run(Initial(disk), events[..|events| - 1]);
      RunNamed(disk, events[..|events| - 1]);
      ExecNamed(mid, Plan(mid, events[|events| - 1]));
    }
  }

  // ---------- what it is for ----------

  /** All entries of a client that makes one CONNECT are of its one session object. */
  lemma OneConnectOnlyLast(disk: Disk, events: seq<Event>, s: SessionRef)
    requires ClientOnce(events, s.id) && RefOk(Run(Initial(disk), events), s)
    ensures O.OnlyLast(Run(Initial(disk), events), s)
  {
    var st := Run(Initial(disk), events);
    InitiallyInv(disk);
    RunKeepsInv(Initial(disk), events);
    hide Run, T.SubsAt;
    forall p: Path, i | 0 <= i < |T.SubsAt(st.topics, p)| && T.SubsAt(st.topics, p)[i].session.id == s.id
      ensures T.SubsAt(st.topics, p)[i].session == s
    {
      assert RefOk(st, T.SubsAt(st.topics, p)[i].session);
      OneOfClient(disk, events, s.id, T.SubsAt(st.topics, p)[i].session.num, s.num);
    }
  }

  /** A connection that makes one CONNECT reaches one session object. */
  lemma OneConnectOnlySession(disk: Disk, events: seq<Event>, k: ConnRef, s: SessionRef)
    requires ConnOnce(events, k) && IO.Up(Run(Initial(disk), events), k, s)
    ensures Reaching.OnlySession(Run(Initial(disk), events), k, s)
  {
    var st := Run(Initial(disk), events);
    hide Run;
    forall n | 0 <= n < |st.sessions| && st.sessions[n].client == Some(k) ensures n == s.num {
      OneReached(disk, events, k, n, s.num);
    }
  }

  lemma OneConnectAboutToLeave(disk: Disk, events: seq<Event>, k: ConnRef, s: SessionRef)
    requires ClientOnce(events, s.id) && IO.Up(Run(Initial(disk), events), k, s) && !s.clean && s.id != ""
    ensures L.AboutToLeave(Run(Initial(disk), events), k, s)
  {
    var st := Run(Initial(disk), events);
    InitiallyInv(disk);
    RunKeepsInv(Initial(disk), events);
    RunNamed(disk, events);
    hide Run, T.SubsAt, I.RootOk, O.OnlyLast, EntriesOk, StoreOk, SessionsOk;
    assert ConnOk(st, k);
    OneConnectOnlyLast(disk, events, s);
    forall j | 0 <= j < |st.conns| && j != k && st.conns[j].connected ensures st.conns[j].id != s.id {
      if st.conns[j].id == s.id {
        assert ConnOk(st, j);
        OneOfClient(disk, events, s.id, st.conns[j].session.value.num, s.num);
      }
    }
  }

  /** From the start of the broker: a persistent client makes one CONNECT, loses its connection, stays away
      and comes back. Every copy queued for it in the meantime, its own will's included, is written to its
      new connection exactly once, in publish order up to the wrap of the sequencer. */
  lemma {:induction false} OnceLostAndBack(disk: Disk, before: seq<Event>, k: ConnRef, s: SessionRef, events: seq<Event>,
                                           again: ConnRef, will: Option<Message>)
    requires ClientOnce(before, s.id) && IO.Up(Run(Initial(disk), before), k, s) && !s.clean && s.id != ""
    requires forall e :: 0 <= e < |events| ==> O.StaysAway(events[e], s)
    requires var lost := Run(Initial(disk), before + [OnError(k)]);
             Run(lost, events).calls <= Run(Initial(disk), before).calls + S.PERIOD && Connected(Run(lost, events), Some(again))
    ensures var st := Run(Initial(disk), before);
            var lost := Run(Initial(disk), before + [OnError(k)]);
            var now := Run(lost, events);
            R.SentBack(Step(now, OnConnect(again, s.id, false, will)).log, |now.log|, again,
                       O.QueuedIn(Do(st, Close(k)), L.Rest(st, k, false), s) + O.QueuedRun(lost, events, s))
  {
    hide L.AboutToLeave, O.StaysAway, O.QueuedIn, O.QueuedRun, R.SentBack, Step, Connected, Do, IO.Up, L.Rest;
    var all := before + [OnError(k)];
    assert all[..|all| - 1] == before && all[|all| - 1] == OnError(k);
    assert Run(Initial(disk), all) == Step(Run(Initial(disk), before), OnError(k));
    OneConnectAboutToLeave(disk, before, k, s);
    L.LostAndBack(Run(Initial(disk), before), k, s, events, again, will);
  }

  /** From the start of the broker, over every safe run in which a client id and its connection make one
      CONNECT: the client is sent a copy if and only if it is owed the message, and at most as many as it
      holds matching filters. */
  lemma {:induction false} OncePublishSendsOwed(disk: Disk, events: seq<Event>, topic: Bytes, payload: Bytes, qos: byte, retain: bool,
                                                k: ConnRef, s: SessionRef)
    requires I.SafeRun(N.AllOps(Initial(disk), events)) && ValidTopicName(topic)
    requires ClientOnce(events, s.id) && ConnOnce(events, k) && IO.Up(Run(Initial(disk), events), k, s)
    ensures var st := Run(Initial(disk), events);
            var h := N.Told(disk, events);
            var log := Exec(st, PlanPublish(st.topics, topic, payload, qos, retain, st.clock)).log;
            && (Reaching.SentTo(log, |st.log|, k) > 0 <==> I.Owed(h, Split(topic), s.id))
            && Reaching.SentTo(log, |st.log|, k) <= |I.OwedFilters(h, Split(topic), s.id)|
  {
    hide Run, N.AllOps, I.SafeRun, N.Told, Exec, PlanPublish, Split, I.Owed, I.OwedFilters, O.OnlyLast, Reaching.OnlySession, IO.Up,
         ValidTopicName, Reaching.OwnEntry, Reaching.SentTo, ClientOnce, ConnOnce, RefOk;
    InitiallyInv(disk);
    RunKeepsInv(Initial(disk), events);
    Reaching.UpIsOk(Run(Initial(disk), events), k, s);
    OneConnectOnlyLast(disk, events, s);
    OneConnectOnlySession(disk, events, k, s);
    Reaching.PublishSendsOwed(disk, events, topic, payload, qos, retain, k, s);
  }
}

/** What one Publish does with every subscription of every matched node. */
module FanOut {
  import opened Base
  import opened Filters
  import opened Sessions
  import opened Delivery
  import opened BrokerInvariant
  import opened Handshake
  import I = IndexSpec
  import S = Sequencer
  import T = TopicTree

  /** The three things that can become of a copy. */
  datatype Fate = Emitted(conn: ConnRef) | Kept | Dropped

  function CopyQos(sub: Subscription, pubQos: byte): (qos: byte)
    ensures Smaller(qos, sub.qos, pubQos)
  {
    Min(sub.qos, pubQos)
  }

  /** Decided by connectivity, by the clean flag and by the smaller QoS. */
  function FateOf(st: State, sub: Subscription, pubQos: byte): Fate {
    if Reached(st, sub.session) then Emitted(SessionClient(st, sub.session.num).value)
    else if !sub.session.clean && CopyQos(sub, pubQos) > 0 && sub.session.num < |st.sessions| then Kept
    else Dropped
  }

  /** How many of the copies draw an identifier. */
  function Numbered(subs: seq<Subscription>, pubQos: byte): nat {
    if subs == [] then 0
    else Numbered(subs[..|subs| - 1], pubQos) + if CopyQos(subs[|subs| - 1], pubQos) > 0 then 1 else 0
  }

  /** The identifier of copy `i`; 0 when its QoS is 0. */
  function CopyId(st: State, subs: seq<Subscription>, i: nat, pubQos: byte): PacketId
    requires i < |subs|
  {
    if CopyQos(subs[i], pubQos) > 0 then S.IdOfCall(st.calls + Numbered(subs[..i], pubQos)) else 0
  }

  function CountEmitted(st: State, subs: seq<Subscription>, pubQos: byte): nat {
    if subs == [] then 0
    else CountEmitted(st, subs[..|subs| - 1], pubQos) + if FateOf(st, subs[|subs| - 1], pubQos).Emitted? then 1 else 0
  }

  lemma {:induction false} NumberedMonotone(subs: seq<Subscription>, i: nat, pubQos: byte)
    requires i <= |subs|
    ensures Numbered(subs[..i], pubQos) <= Numbered(subs, pubQos)
    decreases |subs|
  {
    if i == |subs| {
      assert subs[..i] == subs;
    } else {
      NumberedMonotone(subs[..|subs| - 1], i, pubQos);
      assert subs[..|subs| - 1][..i] == subs[..i];
    }
  }

  lemma NumberedNext(subs: seq<Subscription>, i: nat, pubQos: byte)
    requires i < |subs|
    ensures Numbered(subs[..i + 1], pubQos) == Numbered(subs[..i], pubQos) + if CopyQos(subs[i], pubQos) > 0 then 1 else 0
  {
    assert subs[..i + 1][..i] == subs[..i];
  }

  /** All copies above QoS 0 have identifiers of their own while there are at most 65534 of them. */
  lemma CopyIdsDistinct(st: State, subs: seq<Subscription>, pubQos: byte, i: nat, j: nat)
    requires i < j < |subs| && Numbered(subs, pubQos) <= S.PERIOD
    requires CopyQos(subs[i], pubQos) > 0 && CopyQos(subs[j], pubQos) > 0
    ensures CopyId(st, subs, i, pubQos) != CopyId(st, subs, j, pubQos)
  {
    hide S.IdOfCall, Numbered, CopyQos;
    NumberedNext(subs, i, pubQos);
    NumberedNext(subs, j, pubQos);
    NumberedMonotone(subs[..j], i + 1, pubQos);
    assert subs[..j][..i + 1] == subs[..i + 1];
    NumberedMonotone(subs, j + 1, pubQos);
    S.FreshWithinPeriod(st.calls + Numbered(subs[..i], pubQos), st.calls + Numbered(subs[..j], pubQos));
  }

  // ---------- what stays the same while copies are delivered ----------

  predicate SameWorld(st: State, st': State) {
    && st'.conns == st.conns && st'.topics == st.topics
    && |st'.sessions| == |st.sessions|
    && forall n :: 0 <= n < |st.sessions| ==>
         st'.sessions[n].ref == st.sessions[n].ref && st'.sessions[n].client == st.sessions[n].client
  }

  lemma DeliverKeepsWorld(st: State, sub: Subscription, topic: Bytes, payload: Bytes, pubQos: byte)
    ensures SameWorld(st, DoDeliver(st, sub, topic, payload, pubQos))
    ensures DoDeliver(st, sub, topic, payload, pubQos).calls == st.calls + if CopyQos(sub, pubQos) > 0 then 1 else 0
  {
  }

  function After(st: State, subs: seq<Subscription>, topic: Bytes, payload: Bytes, pubQos: byte): State {
    if subs == [] then st
    else DoDeliver(After(st, subs[..|subs| - 1], topic, payload, pubQos), subs[|subs| - 1], topic, payload, pubQos)
  }

  lemma {:induction false} AfterIsExec(st: State, subs: seq<Subscription>, topic: Bytes, payload: Bytes, pubQos: byte)
    ensures Exec(st, Deliveries(subs, topic, payload, pubQos)) == After(st, subs, topic, payload, pubQos)
    decreases |subs|
  {
    hide DoDeliver;
    if subs != [] {
      var n := |subs| - 1;
      AfterIsExec(st, subs[..n], topic, payload, pubQos);
      assert Deliveries(subs, topic, payload, pubQos)[..n] == Deliveries(subs[..n], topic, payload, pubQos);
    }
  }

  lemma {:induction false} WorldAfter(st: State, subs: seq<Subscription>, topic: Bytes, payload: Bytes, pubQos: byte)
    ensures SameWorld(st, After(st, subs, topic, payload, pubQos))
    ensures After(st, subs, topic, payload, pubQos).calls == st.calls + Numbered(subs, pubQos)
    decreases |subs|
  {
    if subs != [] {
      var n := |subs| - 1;
      WorldAfter(st, subs[..n], topic, payload, pubQos);
      DeliverKeepsWorld(After(st, subs[..n], topic, payload, pubQos), subs[n], topic, payload, pubQos);
    }
  }

  lemma SameFate(st: State, st': State, sub: Subscription, pubQos: byte)
    requires SameWorld(st, st')
    ensures FateOf(st', sub, pubQos) == FateOf(st, sub, pubQos)
    ensures SessionClient(st', sub.session.num) == SessionClient(st, sub.session.num)
  {
  }

  // ---------- one copy ----------

  predicate IsCopy(m: ClientMessage, topic: Bytes, payload: Bytes, qos: byte, origin: Origin, client: Option<ConnRef>) {
    m == ClientMessage(client, topic, payload, qos, 0, Unacknowledged, origin)
  }

  /** The message of copy `i` is in the broker's store, with a retry loop. */
  predicate StoredCopy(st: State, id: PacketId, topic: Bytes, payload: Bytes, qos: byte, call: nat, conn: ConnRef) {
    && id in st.store && st.store[id] < |st.msgs|
    && IsCopy(st.msgs[st.store[id]], topic, payload, qos, Live(call), Some(conn))
    && exists n :: 0 <= n < |st.retries| && st.retries[n] == RetryLoop(id, st.store[id], Early)
  }

  /** The message of copy `i` is in its session's store. */
  predicate KeptCopy(st: State, s: SessionRef, id: PacketId, topic: Bytes, payload: Bytes, qos: byte, call: nat, client: Option<ConnRef>) {
    && s.num < |st.sessions| && id in st.sessions[s.num].messages && st.sessions[s.num].messages[id] < |st.msgs|
    && IsCopy(st.msgs[st.sessions[s.num].messages[id]], topic, payload, qos, Queued(call), client)
  }

  /** What is left behind by a copy, according to its fate. */
  predicate Accounted(st: State, sub: Subscription, id: PacketId, topic: Bytes, payload: Bytes, pubQos: byte, call: nat, at: State) {
    var qos := CopyQos(sub, pubQos);
    match FateOf(st, sub, pubQos)
    case Emitted(k) => qos > 0 ==> StoredCopy(at, id, topic, payload, qos, call, k)
    case Kept => KeptCopy(at, sub.session, id, topic, payload, qos, call, SessionClient(st, sub.session.num))
    case Dropped => true
  }

  /** A copy that is emitted adds one PUBLISH with its own QoS, identifier, topic and payload, and DUP and
      RETAIN clear; one that is kept or dropped writes nothing. */
  lemma OneCopy(st: State, sub: Subscription, topic: Bytes, payload: Bytes, pubQos: byte)
    ensures var st' := DoDeliver(st, sub, topic, payload, pubQos);
            var qos := CopyQos(sub, pubQos);
            var id := if qos > 0 then S.IdOfCall(st.calls) else 0;
            && (match FateOf(st, sub, pubQos)
                case Emitted(k) => st'.log == st.log + [Sent(k, Publish(id, topic, payload, 0, qos, 0), if qos > 0 then Some(|st.msgs|) else None)]
                case _ => st'.log == st.log)
            && (sub.session.num < |st.sessions| && st.sessions[sub.session.num].ref == sub.session ==>
                  Accounted(st, sub, id, topic, payload, pubQos, st.calls, st'))
  {
    var st' := DoDeliver(st, sub, topic, payload, pubQos);
    if FateOf(st, sub, pubQos).Emitted? && CopyQos(sub, pubQos) > 0 {
      assert st'.retries[|st.retries|] == RetryLoop(S.IdOfCall(st.calls), |st.msgs|, Early);
    }
  }

  /** And nothing else: a copy that is dropped leaves no trace but the identifier it drew, one of QoS 0 is only
      written, one that is emitted leaves sessions and session store alone, and one that is kept the broker's
      store and the retry loops. */
  lemma CopyFrame(st: State, sub: Subscription, topic: Bytes, payload: Bytes, pubQos: byte)
    ensures var st' := DoDeliver(st, sub, topic, payload, pubQos);
            match FateOf(st, sub, pubQos)
            case Emitted(_) =>
              && st' == st.(calls := st'.calls, msgs := st'.msgs, store := st'.store, retries := st'.retries, log := st'.log)
              && (CopyQos(sub, pubQos) == 0 ==> st' == st.(log := st'.log))
            case Kept => st' == st.(calls := st'.calls, msgs := st'.msgs, sessions := st'.sessions, disk := st'.disk)
            case Dropped => st' == st.(calls := st'.calls)
  {
    hide S.IdOfCall, Snapshot;
  }

  /** A retained message goes to a session that can be reached, and is not kept for one that cannot; one of
      QoS 0 is only written. */
  lemma RetainedFrame(st: State, sub: Subscription, msg: Message)
    ensures var st' := DoDeliverRetained(st, sub, msg);
            && (!Reached(st, sub.session) ==> st' == st)
            && st' == st.(calls := st'.calls, msgs := st'.msgs, store := st'.store, retries := st'.retries, log := st'.log)
            && (Smaller(0, sub.qos, msg.qos) ==> st' == st.(log := st'.log))
  {
    hide S.IdOfCall;
  }

  // ---------- all copies ----------

  predicate CopyAccounted(st: State, subs: seq<Subscription>, i: nat, topic: Bytes, payload: Bytes, pubQos: byte, at: State)
    requires i < |subs|
  {
    Accounted(st, subs[i], CopyId(st, subs, i, pubQos), topic, payload, pubQos, st.calls + Numbered(subs[..i], pubQos), at)
  }

  /** A later copy with another identifier disturbs neither the broker's store nor a session's. */
  lemma StoredCopyPersists(at: State, id: PacketId, topic: Bytes, payload: Bytes, qos: byte, call: nat, k: ConnRef,
                           sub: Subscription, pubQos: byte)
    requires StoredCopy(at, id, topic, payload, qos, call, k)
    requires CopyQos(sub, pubQos) > 0 ==> S.IdOfCall(at.calls) != id
    ensures StoredCopy(DoDeliver(at, sub, topic, payload, pubQos), id, topic, payload, qos, call, k)
  {
    var st' := DoDeliver(at, sub, topic, payload, pubQos);
    var n :| 0 <= n < |at.retries| && at.retries[n] == RetryLoop(id, at.store[id], Early);
    assert st'.retries[n] == at.retries[n];
  }

  lemma KeptCopyPersists(at: State, s: SessionRef, id: PacketId, topic: Bytes, payload: Bytes, qos: byte, call: nat,
                         client: Option<ConnRef>, sub: Subscription, pubQos: byte)
    requires KeptCopy(at, s, id, topic, payload, qos, call, client)
    requires CopyQos(sub, pubQos) > 0 ==> S.IdOfCall(at.calls) != id
    ensures KeptCopy(DoDeliver(at, sub, topic, payload, pubQos), s, id, topic, payload, qos, call, client)
  {
    hide Snapshot;
  }

  lemma AccountedPersists(st: State, sub: Subscription, id: PacketId, topic: Bytes, payload: Bytes, pubQos: byte, call: nat,
                          at: State, next: Subscription)
    requires Accounted(st, sub, id, topic, payload, pubQos, call, at)
    requires CopyQos(sub, pubQos) > 0 && CopyQos(next, pubQos) > 0 ==> S.IdOfCall(at.calls) != id
    ensures Accounted(st, sub, id, topic, payload, pubQos, call, DoDeliver(at, next, topic, payload, pubQos))
  {
    hide DoDeliver, StoredCopy, KeptCopy;
    var qos := CopyQos(sub, pubQos);
    match FateOf(st, sub, pubQos) {
      case Emitted(k) =>
        if qos > 0 {
          StoredCopyPersists(at, id, topic, payload, qos, call, k, next, pubQos);
        }
      case Kept =>
        KeptCopyPersists(at, sub.session, id, topic, payload, qos, call, SessionClient(st, sub.session.num), next, pubQos);
      case Dropped =>
    }
  }

  lemma LastAccounted(st: State, subs: seq<Subscription>, topic: Bytes, payload: Bytes, pubQos: byte)
    requires subs != [] && RefOk(st, subs[|subs| - 1].session)
    ensures CopyAccounted(st, subs, |subs| - 1, topic, payload, pubQos, After(st, subs, topic, payload, pubQos))
  {
    var n := |subs| - 1;
    var before := After(st, subs[..n], topic, payload, pubQos);
    WorldAfter(st, subs[..n], topic, payload, pubQos);
    SameFate(st, before, subs[n], pubQos);
    OneCopy(before, subs[n], topic, payload, pubQos);
    LastStep(st, subs, topic, payload, pubQos);
    SameAccount(st, before, subs[n], CopyId(st, subs, n, pubQos), topic, payload, pubQos, before.calls, DoDeliver(before, subs[n], topic, payload, pubQos));
    hide After, DoDeliver, Accounted, FateOf, SameWorld;
  }

  lemma SameAccount(st: State, st': State, sub: Subscription, id: PacketId, topic: Bytes, payload: Bytes, pubQos: byte, call: nat, at: State)
    requires FateOf(st', sub, pubQos) == FateOf(st, sub, pubQos)
    requires SessionClient(st', sub.session.num) == SessionClient(st, sub.session.num)
    ensures Accounted(st, sub, id, topic, payload, pubQos, call, at) <==> Accounted(st', sub, id, topic, payload, pubQos, call, at)
  {
    hide StoredCopy, KeptCopy, FateOf, CopyQos;
  }

  lemma SameCopy(st: State, subs: seq<Subscription>, i: nat, topic: Bytes, payload: Bytes, pubQos: byte, at: State)
    requires i < |subs| - 1
    ensures CopyAccounted(st, subs[..|subs| - 1], i, topic, payload, pubQos, at) <==> CopyAccounted(st, subs, i, topic, payload, pubQos, at)
  {
    hide Accounted;
    assert subs[..|subs| - 1][..i] == subs[..i];
  }

  lemma {:induction false} AllAccounted(st: State, subs: seq<Subscription>, i: nat, topic: Bytes, payload: Bytes, pubQos: byte)
    requires i < |subs| && Numbered(subs, pubQos) <= S.PERIOD
    requires forall j :: 0 <= j < |subs| ==> RefOk(st, subs[j].session)
    ensures CopyAccounted(st, subs, i, topic, payload, pubQos, After(st, subs, topic, payload, pubQos))
    decreases |subs|
  {
    hide After, DoDeliver, Accounted, SameWorld, Numbered;
    var n := |subs| - 1;
    if i == n {
      LastAccounted(st, subs, topic, payload, pubQos);
    } else {
      NumberedMonotone(subs, n, pubQos);
      AllAccounted(st, subs[..n], i, topic, payload, pubQos);
      WorldAfter(st, subs[..n], topic, payload, pubQos);
      LastStep(st, subs, topic, payload, pubQos);
      assert subs[..n][..i] == subs[..i];
      if CopyQos(subs[n], pubQos) > 0 && CopyQos(subs[i], pubQos) > 0 {
        CopyIdsDistinct(st, subs, pubQos, i, n);
      }
      SameCopy(st, subs, i, topic, payload, pubQos, After(st, subs[..n], topic, payload, pubQos));
      AccountedPersists(st, subs[i], CopyId(st, subs, i, pubQos), topic, payload, pubQos,
                        st.calls + Numbered(subs[..i], pubQos), After(st, subs[..n], topic, payload, pubQos), subs[n]);
    }
  }

  lemma LastStep(st: State, subs: seq<Subscription>, topic: Bytes, payload: Bytes, pubQos: byte)
    requires subs != []
    ensures After(st, subs, topic, payload, pubQos)
         == DoDeliver(After(st, subs[..|subs| - 1], topic, payload, pubQos), subs[|subs| - 1], topic, payload, pubQos)
  {
  }

  /** What Publish writes: one packet per emitted copy, in the order of the entries. */
  function Writes(st: State, subs: seq<Subscription>, topic: Bytes, payload: Bytes, pubQos: byte): seq<(ConnRef, Packet)> {
    if subs == [] then []
    else
      var n := |subs| - 1;
      Writes(st, subs[..n], topic, payload, pubQos) +
      match FateOf(st, subs[n], pubQos)
      case Emitted(k) => [(k, Publish(CopyId(st, subs, n, pubQos), topic, payload, 0, CopyQos(subs[n], pubQos), 0))]
      case _ => []
  }

  predicate Wrote(log: seq<LogEntry>, from: nat, packets: seq<(ConnRef, Packet)>) {
    |log| == from + |packets| &&
    forall j :: from <= j < |log| ==> log[j].Sent? && (log[j].conn, log[j].packet) == packets[j - from]
  }

  lemma {:induction false} AllWritten(st: State, subs: seq<Subscription>, topic: Bytes, payload: Bytes, pubQos: byte)
    ensures var st' := After(st, subs, topic, payload, pubQos);
            st.log <= st'.log && Wrote(st'.log, |st.log|, Writes(st, subs, topic, payload, pubQos))
    ensures |Writes(st, subs, topic, payload, pubQos)| == CountEmitted(st, subs, pubQos)
    decreases |subs|
  {
    hide DoDeliver, Accounted, FateOf, S.IdOfCall;
    if subs != [] {
      var n := |subs| - 1;
      var before := After(st, subs[..n], topic, payload, pubQos);
      AllWritten(st, subs[..n], topic, payload, pubQos);
      WorldAfter(st, subs[..n], topic, payload, pubQos);
      SameFate(st, before, subs[n], pubQos);
      OneCopy(before, subs[n], topic, payload, pubQos);
    }
  }

  /** Conservation: every entry is emitted, kept or dropped, exactly as its connectivity, its clean flag
      and the smaller QoS decide; what is written is the emitted copies, one packet each, in order;
      every copy above QoS 0 is found afterwards where its fate puts it, under an identifier of its own. */
  lemma {:induction false} PublishConserves(st: State, subs: seq<Subscription>, topic: Bytes, payload: Bytes, pubQos: byte)
    requires Numbered(subs, pubQos) <= S.PERIOD
    requires forall j :: 0 <= j < |subs| ==> RefOk(st, subs[j].session)
    ensures var st' := Exec(st, Deliveries(subs, topic, payload, pubQos));
            && Wrote(st'.log, |st.log|, Writes(st, subs, topic, payload, pubQos))
            && |st'.log| == |st.log| + CountEmitted(st, subs, pubQos)
            && st'.calls == st.calls + Numbered(subs, pubQos)
            && (forall i :: 0 <= i < |subs| ==> CopyAccounted(st, subs, i, topic, payload, pubQos, st'))
  {
    AfterIsExec(st, subs, topic, payload, pubQos);
    AllWritten(st, subs, topic, payload, pubQos);
    WorldAfter(st, subs, topic, payload, pubQos);
    forall i | 0 <= i < |subs|
      ensures CopyAccounted(st, subs, i, topic, payload, pubQos, After(st, subs, topic, payload, pubQos))
    {
      AllAccounted(st, subs, i, topic, payload, pubQos);
    }
  }

  /** The state in which Publish goes through the entries. */
  function AfterRetaining(st: State, topic: Bytes, payload: Bytes, qos: byte, retain: bool): State {
    if retain then st.(topics := I.Apply(st.topics, RetainOp(topic, payload, qos, st.clock))) else st
  }

  lemma PublishIsDeliveries(st: State, topic: Bytes, payload: Bytes, qos: byte, retain: bool)
    requires ValidTopicName(topic)
    ensures Exec(st, PlanPublish(st.topics, topic, payload, qos, retain, st.clock))
         == Exec(AfterRetaining(st, topic, payload, qos, retain), Deliveries(Recipients(T.Match(st.topics, Split(topic))), topic, payload, qos))
  {
    hide T.Match, Recipients, I.Apply, Deliveries, RetainOp, Split;
    var rest := Deliveries(Recipients(T.Match(st.topics, Split(topic))), topic, payload, qos);
    var plan := PlanPublish(st.topics, topic, payload, qos, retain, st.clock);
    if retain {
      var op := RetainOp(topic, payload, qos, st.clock);
      assert plan[..1] == [Index(op)] && plan[1..] == rest;
      assert [Index(op)][..0] == [] && Exec(st, []) == st;
      ExecSplit(st, plan, 1);
      RetainOpIsRetain(topic, payload, qos, st.clock);
    } else {
      assert plan == rest;
    }
  }

  lemma RetainOpIsRetain(topic: Bytes, payload: Bytes, qos: byte, clock: int)
    ensures RetainOp(topic, payload, qos, clock).Retain?
  {
  }

  /** The same of a whole call of Publish, retained or not, in any state the broker can be in. */
  lemma PublishCallConserves(st: State, topic: Bytes, payload: Bytes, qos: byte, retain: bool)
    requires Inv(st) && ValidTopicName(topic)
    requires Numbered(Recipients(T.Match(st.topics, Split(topic))), qos) <= S.PERIOD
    ensures var subs := Recipients(T.Match(st.topics, Split(topic)));
            var st' := Exec(st, PlanPublish(st.topics, topic, payload, qos, retain, st.clock));
            && Wrote(st'.log, |st.log|, Writes(st, subs, topic, payload, qos))
            && |st'.log| == |st.log| + CountEmitted(st, subs, qos)
            && (forall i :: 0 <= i < |subs| ==> CopyAccounted(st, subs, i, topic, payload, qos, st'))
  {
    RecipientsOk(st, Split(topic));
    hide T.Match, Recipients, I.Apply, Wrote, Writes, CountEmitted, CopyAccounted, Numbered, Exec, PlanPublish, Inv, Split;
    var subs := Recipients(T.Match(st.topics, Split(topic)));
    var mid := AfterRetaining(st, topic, payload, qos, retain);
    PublishIsDeliveries(st, topic, payload, qos, retain);
    PublishConserves(mid, subs, topic, payload, qos);
    SameButTopics(st, mid, subs, topic, payload, qos, Exec(mid, Deliveries(subs, topic, payload, qos)));
  }

  lemma {:induction false} SameButTopics(st: State, mid: State, subs: seq<Subscription>, topic: Bytes, payload: Bytes, qos: byte, at: State)
    requires mid == st.(topics := mid.topics)
    ensures Writes(mid, subs, topic, payload, qos) == Writes(st, subs, topic, payload, qos)
    ensures CountEmitted(mid, subs, qos) == CountEmitted(st, subs, qos)
    ensures forall i :: 0 <= i < |subs| ==> (CopyAccounted(mid, subs, i, topic, payload, qos, at) <==> CopyAccounted(st, subs, i, topic, payload, qos, at))
    decreases |subs|
  {
    if subs != [] {
      SameButTopics(st, mid, subs[..|subs| - 1], topic, payload, qos, at);
    }
  }
}

/** What clients are sent, read off the log: the copies of a Publish, and what answers a SUBSCRIBE. */
module Reaching {
  import opened Base
  import opened Filters
  import opened Sessions
  import opened Delivery
  import opened BrokerInvariant
  import opened FanOut
  import opened IndexInRuns
  import opened ToldHistory
  import B = Broker
  import D = IndexDelivery
  import I = IndexSpec
  import IO = InboundOnce
  import M = Matching
  import O = Offline
  import P = Packets
  import Q = TreeQueries
  import R = Replay
  import S = Sequencer
  import T = TopicTree

  // ---------- Publish ----------

  function CountTo(packets: seq<(ConnRef, Packet)>, k: ConnRef): nat {
    if packets == [] then 0
    else CountTo(packets[..|packets| - 1], k) + if packets[|packets| - 1].0 == k then 1 else 0
  }

  /** How many packets are written to a connection from position `from` of the log on. */
  function SentTo(log: seq<LogEntry>, from: nat, k: ConnRef): nat {
    if |log| <= from then 0
    else SentTo(log[..|log| - 1], from, k) + if log[|log| - 1].Sent? && log[|log| - 1].conn == k then 1 else 0
  }

  lemma {:induction false} SentIsWritten(log: seq<LogEntry>, from: nat, packets: seq<(ConnRef, Packet)>, k: ConnRef)
    requires Wrote(log, from, packets)
    ensures SentTo(log, from, k) == CountTo(packets, k)
    decreases |packets|
  {
    if packets != [] {
      SentIsWritten(log[..|log| - 1], from, packets[..|packets| - 1], k);
    }
  }

  /** No other session object is reached through the connection: it has made one CONNECT. */
  predicate OnlySession(st: State, k: ConnRef, s: SessionRef) {
    forall n :: 0 <= n < |st.sessions| && st.sessions[n].client == Some(k) ==> n == s.num
  }

  lemma CountMore(packets: seq<(ConnRef, Packet)>, x: (ConnRef, Packet), k: ConnRef)
    ensures CountTo(packets + [x], k) == CountTo(packets, k) + if x.0 == k then 1 else 0
  {
    assert (packets + [x])[..|packets|] == packets;
  }

  lemma EntryMore(subs: seq<Subscription>, x: Subscription, c: ClientId)
    ensures I.CountOf(subs + [x], c) == I.CountOf(subs, c) + if x.session.id == c then 1 else 0
  {
    CountSplit(subs, [x], c);
    assert [x][1..] == [] && I.CountOf([], c) == 0;
  }

  /** The entries whose session object is reached through the connection. */
  function CountThrough(st: State, subs: seq<Subscription>, k: ConnRef): nat {
    if subs == [] then 0
    else CountThrough(st, subs[..|subs| - 1], k) + if SessionClient(st, subs[|subs| - 1].session.num) == Some(k) then 1 else 0
  }

  /** The entries of one session object. */
  function CountOwn(subs: seq<Subscription>, s: SessionRef): nat {
    if subs == [] then 0
    else CountOwn(subs[..|subs| - 1], s) + if subs[|subs| - 1].session == s then 1 else 0
  }

  lemma FateAtConnection(st: State, sub: Subscription, qos: byte, k: ConnRef)
    requires Connected(st, Some(k))
    ensures FateOf(st, sub, qos) == Emitted(k) <==> SessionClient(st, sub.session.num) == Some(k)
  {
  }

  /** What is written to a live connection is one copy per entry whose session object is reached through it. */
  lemma {:induction false} CopiesToConnection(st: State, subs: seq<Subscription>, topic: Bytes, payload: Bytes, qos: byte, k: ConnRef)
    requires Connected(st, Some(k))
    ensures CountTo(Writes(st, subs, topic, payload, qos), k) == CountThrough(st, subs, k)
    decreases |subs|
  {
    hide FateOf, CopyId, CopyQos, CountTo, Connected, SessionClient;
    if subs == [] {
      NoneToConnection(k);
    } else {
      var n := |subs| - 1;
      var before := Writes(st, subs[..n], topic, payload, qos);
      CopiesToConnection(st, subs[..n], topic, payload, qos, k);
      FateAtConnection(st, subs[n], qos, k);
      match FateOf(st, subs[n], qos)
      case Emitted(c) => CountMore(before, (c, Publish(CopyId(st, subs, n, qos), topic, payload, 0, CopyQos(subs[n], qos), 0)), k);
      case _ => assert before + [] == before;
    }
  }

  lemma {:induction false} OwnAreThrough(st: State, subs: seq<Subscription>, k: ConnRef, s: SessionRef)
    requires IO.Up(st, k, s) && RefOk(st, s) && forall i :: 0 <= i < |subs| ==> RefOk(st, subs[i].session)
    ensures CountOwn(subs, s) <= CountThrough(st, subs, k)
    ensures OnlySession(st, k, s) ==> CountThrough(st, subs, k) == CountOwn(subs, s)
    decreases |subs|
  {
    if subs != [] {
      OwnAreThrough(st, subs[..|subs| - 1], k, s);
    }
  }

  lemma {:induction false} OwnAreOfClient(subs: seq<Subscription>, s: SessionRef)
    ensures CountOwn(subs, s) <= I.CountOf(subs, s.id)
    ensures CountOwn(subs, s) > 0 <==> exists i :: 0 <= i < |subs| && subs[i].session == s
    decreases |subs|
  {
    hide I.CountOf;
    if subs == [] {
      assert I.CountOf(subs, s.id) >= 0;
    } else {
      var n := |subs| - 1;
      OwnAreOfClient(subs[..n], s);
      assert subs == subs[..n] + [subs[n]];
      EntryMore(subs[..n], subs[n], s.id);
      if i :| 0 <= i < n && subs[..n][i].session == s {
        assert subs[i].session == s;
      }
      if i :| 0 <= i < n && subs[i].session == s {
        assert subs[..n][i].session == s;
      }
    }
  }

  lemma NoneToConnection(k: ConnRef)
    ensures CountTo([], k) == 0
  {
  }

  /** What Publish writes, in the order of the entries. */
  lemma PublishWrites(st: State, topic: Bytes, payload: Bytes, qos: byte, retain: bool)
    requires ValidTopicName(topic)
    ensures var st' := Exec(st, PlanPublish(st.topics, topic, payload, qos, retain, st.clock));
            Wrote(st'.log, |st.log|, Writes(st, Recipients(T.Match(st.topics, Split(topic))), topic, payload, qos))
  {
    hide T.Match, Recipients, I.Apply, Wrote, Writes, CountEmitted, CopyAccounted, Exec, PlanPublish, Split;
    var subs := Recipients(T.Match(st.topics, Split(topic)));
    var mid := AfterRetaining(st, topic, payload, qos, retain);
    PublishIsDeliveries(st, topic, payload, qos, retain);
    AfterIsExec(mid, subs, topic, payload, qos);
    AllWritten(mid, subs, topic, payload, qos);
    SameButTopics(st, mid, subs, topic, payload, qos, mid);
  }

  lemma {:induction false} WritesArePublishes(st: State, subs: seq<Subscription>, topic: Bytes, payload: Bytes, qos: byte)
    ensures forall j :: 0 <= j < |Writes(st, subs, topic, payload, qos)| ==>
      IsPlainCopy(Writes(st, subs, topic, payload, qos)[j].1, topic, payload, qos)
    decreases |subs|
  {
    hide FateOf;
    if subs != [] {
      WritesArePublishes(st, subs[..|subs| - 1], topic, payload, qos);
    }
  }

  predicate IsPlainCopy(p: Packet, topic: Bytes, payload: Bytes, qos: byte) {
    p.Publish? && p.topic == topic && p.payload == payload && p.qos <= qos && p.dup == 0 && p.retain == 0
  }

  /** An entry whose session object is reached through the connection, and the smaller QoS of entry and message. */
  predicate GrantedBy(st: State, sub: Subscription, k: ConnRef, p: Packet, qos: byte) {
    SessionClient(st, sub.session.num) == Some(k) && p.Publish? && Smaller(p.qos, sub.qos, qos)
  }

  predicate Granted(st: State, subs: seq<Subscription>, k: ConnRef, p: Packet, qos: byte) {
    exists i :: 0 <= i < |subs| && GrantedBy(st, subs[i], k, p, qos)
  }

  lemma {:induction false} WritesAreGranted(st: State, subs: seq<Subscription>, topic: Bytes, payload: Bytes, qos: byte, j: nat)
    requires j < |Writes(st, subs, topic, payload, qos)|
    ensures Granted(st, subs, Writes(st, subs, topic, payload, qos)[j].0, Writes(st, subs, topic, payload, qos)[j].1, qos)
    decreases |subs|
  {
    hide S.IdOfCall;
    var n := |subs| - 1;
    var before := Writes(st, subs[..n], topic, payload, qos);
    if j < |before| {
      WritesAreGranted(st, subs[..n], topic, payload, qos, j);
      var i :| 0 <= i < n && GrantedBy(st, subs[..n][i], before[j].0, before[j].1, qos);
      assert subs[..n][i] == subs[i];
    } else {
      assert GrantedBy(st, subs[n], Writes(st, subs, topic, payload, qos)[j].0, Writes(st, subs, topic, payload, qos)[j].1, qos);
    }
  }

  /** Every packet from some position of the log on goes to a connection through which one of the entries is
      reached, at the smaller QoS of that entry and the message. */
  predicate AllGranted(st: State, subs: seq<Subscription>, log: seq<LogEntry>, from: nat, qos: byte) {
    forall j :: from <= j < |log| ==> log[j].Sent? && Granted(st, subs, log[j].conn, log[j].packet, qos)
  }

  predicate AllCopies(log: seq<LogEntry>, from: nat, topic: Bytes, payload: Bytes, qos: byte) {
    forall j :: from <= j < |log| ==> log[j].Sent? && IsPlainCopy(log[j].packet, topic, payload, qos)
  }

  /** On a node that the topic takes there is an entry of this very session object. */
  ghost predicate OwnEntry(st: State, topic: Path, s: SessionRef) {
    exists q: Path, h :: q != [] && M.MatchesBelow(q, topic) && 0 <= h < |T.SubsAt(st.topics, q)| && T.SubsAt(st.topics, q)[h].session == s
  }

  lemma {:induction false} EntryIsRecipient(matches: seq<T.Tree>, j: nat, x: Subscription)
    requires j < |matches| && x in matches[j].subs
    ensures x in Recipients(matches)
  {
    if j < |matches| - 1 {
      EntryIsRecipient(matches[..|matches| - 1], j, x);
    }
  }

  lemma OwnEntryIsRecipient(st: State, topic: Path, s: SessionRef)
    requires Inv(st) && topic != []
    ensures var subs := Recipients(T.Match(st.topics, topic));
            OwnEntry(st, topic, s) <==> exists i :: 0 <= i < |subs| && subs[i].session == s
  {
    InvOfRoot(st);
    hide T.Match, Recipients, Inv, T.At, T.WellFormed, M.MatchesBelow;
    var subs := Recipients(T.Match(st.topics, topic));
    if i :| 0 <= i < |subs| && subs[i].session == s {
      var q, h := RecipientIsEntry(st.topics, topic, i);
    }
    if q, h :| q != [] && M.MatchesBelow(q, topic) && 0 <= h < |T.SubsAt(st.topics, q)| && T.SubsAt(st.topics, q)[h].session == s {
      D.RootName(st.topics);
      Q.MatchComplete(st.topics, topic, q);
      var m := T.Match(st.topics, topic);
      var j :| 0 <= j < |m| && m[j] == T.At(st.topics, q).value;
      EntryIsRecipient(m, j, T.SubsAt(st.topics, q)[h]);
    }
  }

  /** A client all of whose entries are of its present session has an entry on a node that the topic takes
      exactly when Publish goes through an entry of the client. */
  lemma LastIsOwn(st: State, topic: Path, s: SessionRef)
    requires Inv(st) && O.OnlyLast(st, s) && topic != []
    ensures OwnEntry(st, topic, s) <==> I.CountOf(Recipients(T.Match(st.topics, topic)), s.id) > 0
  {
    InvOfRoot(st);
    OwnEntryIsRecipient(st, topic, s);
    hide T.Match, Recipients, Inv, T.SubsAt, I.RootOk, I.CountOf, OwnEntry;
    var subs := Recipients(T.Match(st.topics, topic));
    OwnAreOfClient(subs, s);
    CountedEntry(subs, s.id);
    if i :| 0 <= i < |subs| && subs[i].session.id == s.id {
      var p, h := RecipientIsEntry(st.topics, topic, i);
      assert T.SubsAt(st.topics, p)[h] == subs[i];
    }
  }

  lemma {:induction false} CountedEntry(subs: seq<Subscription>, c: ClientId)
    ensures I.CountOf(subs, c) > 0 <==> exists i :: 0 <= i < |subs| && subs[i].session.id == c
  {
    if subs != [] {
      CountedEntry(subs[1..], c);
      if i :| 0 <= i < |subs| && subs[i].session.id == c {
        if i > 0 {
          assert subs[1..][i - 1].session.id == c;
        }
      }
    }
  }

  lemma InvOfRoot(st: State)
    requires Inv(st)
    ensures I.RootOk(st.topics)
  {
  }

  lemma UpIsOk(st: State, k: ConnRef, s: SessionRef)
    requires Inv(st) && IO.Up(st, k, s)
    ensures RefOk(st, s)
  {
    assert ConnOk(st, k);
  }

  lemma WrittenIsGranted(st: State, subs: seq<Subscription>, topic: Bytes, payload: Bytes, qos: byte, log: seq<LogEntry>, from: nat)
    requires Wrote(log, from, Writes(st, subs, topic, payload, qos))
    ensures AllGranted(st, subs, log, from, qos)
  {
    hide Granted, Writes;
    forall j | from <= j < |log| ensures log[j].Sent? && Granted(st, subs, log[j].conn, log[j].packet, qos) {
      WritesAreGranted(st, subs, topic, payload, qos, j - from);
    }
  }

  /** Publish writes copies of the message and nothing else, each for an entry and at the smaller QoS of entry
      and message, and to a live connection as many as there are entries on matched nodes whose session object
      is reached through it. */
  lemma PublishSends(st: State, topic: Bytes, payload: Bytes, qos: byte, retain: bool, k: ConnRef)
    requires ValidTopicName(topic) && Connected(st, Some(k))
    ensures var log := Exec(st, PlanPublish(st.topics, topic, payload, qos, retain, st.clock)).log;
            && AllCopies(log, |st.log|, topic, payload, qos)
            && AllGranted(st, Recipients(T.Match(st.topics, Split(topic))), log, |st.log|, qos)
            && SentTo(log, |st.log|, k) == CountThrough(st, Recipients(T.Match(st.topics, Split(topic))), k)
  {
    hide Exec, PlanPublish, Split, T.Match, Recipients, Writes, IsPlainCopy, Connected, ValidTopicName, AllGranted;
    var subs := Recipients(T.Match(st.topics, Split(topic)));
    var log := Exec(st, PlanPublish(st.topics, topic, payload, qos, retain, st.clock)).log;
    PublishWrites(st, topic, payload, qos, retain);
    WritesArePublishes(st, subs, topic, payload, qos);
    WrittenIsGranted(st, subs, topic, payload, qos, log, |st.log|);
    SentIsWritten(log, |st.log|, Writes(st, subs, topic, payload, qos), k);
    CopiesToConnection(st, subs, topic, payload, qos, k);
  }

  lemma UpIsConnected(st: State, k: ConnRef, s: SessionRef)
    requires IO.Up(st, k, s)
    ensures Connected(st, Some(k))
  {
  }

  /** After any safe run, a connected client is sent a copy if it has an entry of its present session on a
      node that the topic takes, and, when its connection has made one CONNECT only, if and only if it has,
      and at most as many as it holds matching filters: a client that is owed the message and has entries of
      older session objects only is sent nothing. For a client whose entries are all of its present session,
      to have one there is to be owed the message. */
  lemma {:induction false} PublishSendsOwed(disk: Disk, events: seq<Event>, topic: Bytes, payload: Bytes, qos: byte, retain: bool,
                                            k: ConnRef, s: SessionRef)
    requires I.SafeRun(AllOps(Initial(disk), events)) && ValidTopicName(topic)
    requires IO.Up(Run(Initial(disk), events), k, s)
    ensures var st := Run(Initial(disk), events);
            var h := Told(disk, events);
            var log := Exec(st, PlanPublish(st.topics, topic, payload, qos, retain, st.clock)).log;
            && (OwnEntry(st, Split(topic), s) ==> SentTo(log, |st.log|, k) > 0 && I.Owed(h, Split(topic), s.id))
            && (OnlySession(st, k, s) ==>
                  && (SentTo(log, |st.log|, k) > 0 <==> OwnEntry(st, Split(topic), s))
                  && SentTo(log, |st.log|, k) <= |I.OwedFilters(h, Split(topic), s.id)|)
            && (O.OnlyLast(st, s) ==> (OwnEntry(st, Split(topic), s) <==> I.Owed(h, Split(topic), s.id)))
  {
    hide Run, AllOps, I.SafeRun, Told, Exec, PlanPublish, Split, I.Owed, I.OwedFilters, T.Match, Recipients, Inv, O.OnlyLast,
         OnlySession, IO.Up, RefOk, ValidTopicName, OwnEntry, CountThrough, CountOwn, I.CountOf, Connected;
    var st := Run(Initial(disk), events);
    InitiallyInv(disk);
    RunKeepsInv(Initial(disk), events);
    UpIsOk(st, k, s);
    UpIsConnected(st, k, s);
    PublishReachesOwed(disk, events, topic, s.id);
    RecipientsOk(st, Split(topic));
    var subs := Recipients(T.Match(st.topics, Split(topic)));
    OwnEntryIsRecipient(st, Split(topic), s);
    PublishSends(st, topic, payload, qos, retain, k);
    OwnAreThrough(st, subs, k, s);
    OwnAreOfClient(subs, s);
    if O.OnlyLast(st, s) {
      LastIsOwn(st, Split(topic), s);
    }
  }

  // ---------- SUBSCRIBE ----------

  /** Where retained messages can be written: the session is reached through the connection. */
  predicate Through(st: State, k: ConnRef, num: nat) {
    Connected(st, Some(k)) && SessionClient(st, num) == Some(k)
  }

  function RetainedQos(sub: Subscription, t: T.Tree): byte {
    if t.retained.Some? then Min(sub.qos, t.retained.value.qos) else 0
  }

  function NumberedFound(found: seq<T.Tree>, sub: Subscription): nat {
    if found == [] then 0
    else NumberedFound(found[..|found| - 1], sub) + if RetainedQos(sub, found[|found| - 1]) > 0 then 1 else 0
  }

  /** One PUBLISH with RETAIN set per retained message, under an identifier of its own above QoS 0. */
  function RetainedPackets(calls: nat, found: seq<T.Tree>, sub: Subscription): seq<Packet> {
    if found == [] then []
    else
      var n := |found| - 1;
      RetainedPackets(calls, found[..n], sub) + RetainedPacket(calls + NumberedFound(found[..n], sub), found[n], sub)
  }

  function RetainedPacket(call: nat, t: T.Tree, sub: Subscription): seq<Packet> {
    if t.retained.None? then []
    else
      var q := RetainedQos(sub, t);
      [Publish(if q > 0 then S.IdOfCall(call) else 0, t.retained.value.topic, t.retained.value.payload, 0, q, 1)]
  }

  lemma OneRetained(st: State, k: ConnRef, sub: Subscription, t: T.Tree)
    requires Through(st, k, sub.session.num) && t.retained.Some?
    ensures var st' := DoDeliverRetained(st, sub, t.retained.value);
            && Through(st', k, sub.session.num)
            && st'.calls == st.calls + (if RetainedQos(sub, t) > 0 then 1 else 0)
            && |st'.log| == |st.log| + 1 && st'.log[..|st.log|] == st.log
            && st'.log[|st.log|].Sent? && st'.log[|st.log|].conn == k
            && [st'.log[|st.log|].packet] == RetainedPacket(st.calls, t, sub)
  {
    hide S.IdOfCall;
  }

  lemma {:induction false} RetainedWritten(st: State, k: ConnRef, found: seq<T.Tree>, sub: Subscription)
    requires Through(st, k, sub.session.num)
    ensures var st' := Exec(st, RetainedDeliveries(found, sub));
            && Through(st', k, sub.session.num) && st'.calls == st.calls + NumberedFound(found, sub) && st.log <= st'.log
            && Wrote(st'.log, |st.log|, R.To(k, RetainedPackets(st.calls, found, sub)))
    decreases |found|
  {
    hide DoDeliverRetained, Through, RetainedPacket, RetainedQos, Wrote, R.To, Exec;
    if found == [] {
      B.ExecNone(st);
      WroteNothing(st.log, k);
    } else {
      var n := |found| - 1;
      var done := RetainedDeliveries(found[..n], sub);
      RetainedWritten(st, k, found[..n], sub);
      var mid := Exec(st, done);
      if found[n].retained.Some? {
        var last := DoDeliverRetained(mid, sub, found[n].retained.value);
        B.ExecOne(st, done, DeliverRetained(sub, found[n].retained.value));
        OneRetained(mid, k, sub, found[n]);
        var more := [last.log[|mid.log|]];
        assert last.log == mid.log + more;
        R.WroteMore(mid.log, |st.log|, k, RetainedPackets(st.calls, found[..n], sub), more, RetainedPacket(mid.calls, found[n], sub));
      } else {
        NoPacket(mid.calls, found[n], sub);
        assert done + [] == done;
        assert RetainedPackets(st.calls, found[..n], sub) + [] == RetainedPackets(st.calls, found[..n], sub);
      }
    }
  }

  lemma NoPacket(call: nat, t: T.Tree, sub: Subscription)
    requires t.retained.None?
    ensures RetainedPacket(call, t, sub) == [] && RetainedQos(sub, t) == 0
  {
  }

  /** What the filters of a SUBSCRIBE bring, filter by filter. */
  function FilterPackets(st: State, s: SessionRef, filters: seq<P.FilterQos>): seq<Packet> {
    if filters == [] then []
    else
      var n := |filters| - 1;
      FilterPackets(st, s, filters[..n])
      + if ValidFilterName(filters[n].filter) then
          RetainedPackets(Exec(st, PlanFilters(st.topics, s, filters[..n])).calls, Found(st.topics, s, filters, n), Subscription(s, filters[n].qos))
        else []
  }

  lemma FoundNext(root: T.Tree, s: SessionRef, filters: seq<P.FilterQos>, n: nat)
    requires n < |filters|
    ensures Found(root, s, filters, n)
         == SortByTime(T.Reverse(I.Apply(TopicsAfter(root, s, filters[..n]), I.Subscribe(s, filters[n].filter, filters[n].qos)), Split(filters[n].filter)))
  {
    assert filters[..n + 1][..n] == filters[..n];
  }

  lemma OneFilter(st: State, mid: State, k: ConnRef, s: SessionRef, filters: seq<P.FilterQos>, n: nat)
    requires n < |filters| && Through(mid, k, s.num) && mid.topics == TopicsAfter(st.topics, s, filters[..n])
    ensures var st' := Exec(mid, PlanSubscribe(mid.topics, s, filters[n]));
            && Through(st', k, s.num) && mid.log <= st'.log
            && Wrote(st'.log, |mid.log|, R.To(k, if ValidFilterName(filters[n].filter) then
                 RetainedPackets(mid.calls, Found(st.topics, s, filters, n), Subscription(s, filters[n].qos)) else []))
  {
    hide Exec, PlanSubscribe, I.Apply, T.Reverse, SortByTime, Split, RetainedPackets, RetainedDeliveries, ValidFilterName, TopicsAfter, NumberedFound;
    B.SubscribePlan(mid, s, filters[n]);
    FoundNext(st.topics, s, filters, n);
    var indexed := mid.(topics := I.Apply(mid.topics, I.Subscribe(s, filters[n].filter, filters[n].qos)));
    assert Through(indexed, k, s.num);
    RetainedWritten(indexed, k, Found(st.topics, s, filters, n), Subscription(s, filters[n].qos));
  }

  lemma WroteTwice(a: seq<LogEntry>, b: seq<LogEntry>, c: seq<LogEntry>, k: ConnRef, p: seq<Packet>, q: seq<Packet>)
    requires a <= b && b <= c && Wrote(b, |a|, R.To(k, p)) && Wrote(c, |b|, R.To(k, q))
    ensures a <= c && Wrote(c, |a|, R.To(k, p + q))
  {
    var more := c[|b|..];
    assert c == b + more;
    forall i | 0 <= i < |more| ensures more[i].Sent? && more[i].conn == k && more[i].packet == q[i] {
      assert R.To(k, q)[i] == (k, q[i]) && c[|b| + i] == more[i];
    }
    R.WroteMore(b, |a|, k, p, more, q);
  }

  lemma {:induction false} FiltersWritten(st: State, k: ConnRef, s: SessionRef, filters: seq<P.FilterQos>)
    requires Through(st, k, s.num)
    ensures var st' := Exec(st, PlanFilters(st.topics, s, filters));
            && Through(st', k, s.num) && st'.topics == TopicsAfter(st.topics, s, filters) && st.log <= st'.log
            && Wrote(st'.log, |st.log|, R.To(k, FilterPackets(st, s, filters)))
    decreases |filters|
  {
    hide PlanSubscribe, Found, RetainedPackets, ValidFilterName, I.Apply, Through, Wrote, R.To, Exec;
    if filters == [] {
      B.ExecNone(st);
      WroteNothing(st.log, k);
    } else {
      var n := |filters| - 1;
      FiltersWritten(st, k, s, filters[..n]);
      var mid := Exec(st, PlanFilters(st.topics, s, filters[..n]));
      var last := Exec(mid, PlanSubscribe(mid.topics, s, filters[n]));
      B.ExecJoin(st, PlanFilters(st.topics, s, filters[..n]), PlanSubscribe(mid.topics, s, filters[n]));
      B.TopicsOfSubscribe(mid, s, filters[n]);
      OneFilter(st, mid, k, s, filters, n);
      WroteTwice(st.log, mid.log, last.log, k, FilterPackets(st, s, filters[..n]),
                 if ValidFilterName(filters[n].filter) then
                   RetainedPackets(mid.calls, Found(st.topics, s, filters, n), Subscription(s, filters[n].qos)) else []);
    }
  }

  lemma WroteNothing(log: seq<LogEntry>, k: ConnRef)
    ensures Wrote(log, |log|, R.To(k, []))
  {
  }

  /** A SUBSCRIBE on a connection that is up: the retained messages, filter by filter, then one SUBACK. */
  lemma {:induction false} SubscribeWrites(st: State, k: ConnRef, s: SessionRef, id: PacketId, filters: seq<P.FilterQos>)
    requires IO.Up(st, k, s)
    ensures var st' := Step(st, OnSubscribe(k, id, filters));
            && st.log <= st'.log
            && Wrote(st'.log, |st.log|, R.To(k, FilterPackets(st, s, filters) + [SubAck(id, B.Codes(filters))]))
  {
    hide PlanFilters, FilterPackets, Exec, B.Codes, Do, Wrote, R.To;
    FiltersWritten(st, k, s, filters);
    var ack := SubAck(id, B.Codes(filters));
    var mid := Exec(st, PlanFilters(st.topics, s, filters));
    SubscribePlanned(st, k, s, id, filters);
    B.ExecOne(st, PlanFilters(st.topics, s, filters), Send(k, ack));
    SendLogs(mid, k, ack);
    R.WroteMore(mid.log, |st.log|, k, FilterPackets(st, s, filters), [Sent(k, ack, None)], [ack]);
  }

  lemma SendLogs(st: State, k: ConnRef, p: Packet)
    ensures Do(st, Send(k, p)).log == st.log + [Sent(k, p, None)]
  {
  }

  lemma SubscribePlanned(st: State, k: ConnRef, s: SessionRef, id: PacketId, filters: seq<P.FilterQos>)
    requires IO.Up(st, k, s)
    ensures Plan(st, OnSubscribe(k, id, filters)) == PlanFilters(st.topics, s, filters) + [Send(k, SubAck(id, B.Codes(filters)))]
  {
    hide PlanFilters;
  }

  lemma {:induction false} OnePacketEach(calls: nat, found: seq<T.Tree>, sub: Subscription)
    requires forall i :: 0 <= i < |found| ==> found[i].retained.Some?
    ensures |RetainedPackets(calls, found, sub)| == |found|
    ensures forall i :: 0 <= i < |found| ==>
      [RetainedPackets(calls, found, sub)[i]] == RetainedPacket(calls + NumberedFound(found[..i], sub), found[i], sub)
    decreases |found|
  {
    hide RetainedPacket, NumberedFound;
    if found != [] {
      var n := |found| - 1;
      OnePacketEach(calls, found[..n], sub);
      OnePacket(calls + NumberedFound(found[..n], sub), found[n], sub);
      forall i | 0 <= i < n
        ensures [RetainedPackets(calls, found, sub)[i]] == RetainedPacket(calls + NumberedFound(found[..i], sub), found[i], sub)
      {
        assert found[..n][..i] == found[..i];
        assert [RetainedPackets(calls, found[..n], sub)[i]] == RetainedPacket(calls + NumberedFound(found[..n][..i], sub), found[..n][i], sub);
      }
    }
  }

  lemma OnePacket(call: nat, t: T.Tree, sub: Subscription)
    requires t.retained.Some?
    ensures |RetainedPacket(call, t, sub)| == 1
  {
  }

  /** The PUBLISH of a retained message, at the smaller QoS. */
  predicate CarriesRetained(p: Packet, m: Message, qos: byte) {
    p.Publish? && p.topic == m.topic && p.payload == m.payload && Smaller(p.qos, qos, m.qos) && p.dup == 0 && p.retain == 1
  }

  /** After any run, a SUBSCRIBE for one valid filter is answered, on a connection that is up, with one
      PUBLISH marked RETAIN for each topic that retains a message and that the filter matches, with the
      latest message, oldest first, and then the SUBACK; nothing else is written. */
  lemma {:induction false} SubscribeSendsRetained(disk: Disk, events: seq<Event>, k: ConnRef, s: SessionRef, id: PacketId, f: P.FilterQos)
    requires ValidFilterName(f.filter) && IO.Up(Run(Initial(disk), events), k, s)
    ensures var st := Run(Initial(disk), events);
            var log := Step(st, OnSubscribe(k, id, [f])).log;
            var found := Found(st.topics, s, [f], 0);
            var packets := RetainedPackets(st.calls, found, Subscription(s, f.qos));
            && I.ExactlyRetained(found, Told(disk, events), Split(f.filter)) && InTimeOrder(found)
            && |packets| == |found|
            && (forall i :: 0 <= i < |found| ==> found[i].retained.Some? && CarriesRetained(packets[i], found[i].retained.value, f.qos))
            && Wrote(log, |st.log|, R.To(k, packets + [SubAck(id, [f.qos])]))
  {
    hide Run, AllOps, Told, Step, InTimeOrder, Found, Wrote, R.To, IO.Up, Split, ValidFilterName, RetainedPackets, CarriesRetained;
    var st := Run(Initial(disk), events);
    var found := Found(st.topics, s, [f], 0);
    FoundAfterRun(disk, events, s, [f], 0);
    SubscribeWrites(st, k, s, id, [f]);
    PacketsCarry(st.calls, found, s, f.qos);
    OneFilterPackets(st, s, f);
    OneCode(f);
  }

  lemma PacketsCarry(calls: nat, found: seq<T.Tree>, s: SessionRef, qos: byte)
    requires forall i :: 0 <= i < |found| ==> found[i].retained.Some?
    ensures var packets := RetainedPackets(calls, found, Subscription(s, qos));
            |packets| == |found| && forall i :: 0 <= i < |found| ==> CarriesRetained(packets[i], found[i].retained.value, qos)
  {
    hide S.IdOfCall, RetainedPackets, NumberedFound;
    OnePacketEach(calls, found, Subscription(s, qos));
  }

  lemma OneFilterPackets(st: State, s: SessionRef, f: P.FilterQos)
    requires ValidFilterName(f.filter)
    ensures FilterPackets(st, s, [f]) == RetainedPackets(st.calls, Found(st.topics, s, [f], 0), Subscription(s, f.qos))
  {
    hide Found, RetainedPackets;
    assert [f][..0] == [] && PlanFilters(st.topics, s, []) == [] && Exec(st, []) == st && FilterPackets(st, s, []) == [];
  }

  lemma OneCode(f: P.FilterQos)
    requires ValidFilterName(f.filter)
    ensures B.Codes([f]) == [f.qos]
  {
    hide ValidFilterName;
  }
}

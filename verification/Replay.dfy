/** What a persistent client receives when it comes back. */
module Replay {
  import opened Base
  import opened Sessions
  import opened Delivery
  import opened FanOut
  import opened Offline
  import H = Handshake
  import IO = InboundOnce
  import S = Sequencer

  // ---------- ascending order ----------

  predicate StrictlyAscending(keys: seq<PacketId>) {
    forall i, j :: 0 <= i < j < |keys| ==> keys[i] < keys[j]
  }

  /** The order of RangeSorted: every identifier once, ascending. */
  lemma {:induction false} AscendingIsSorted(ids: set<PacketId>, lo: nat)
    requires lo <= 65536
    ensures StrictlyAscending(Ascending(ids, lo))
    ensures forall id :: id in Ascending(ids, lo) <==> id in ids && lo <= id
    decreases 65536 - lo
  {
    if lo < 65536 {
      AscendingIsSorted(ids, lo + 1);
      var rest := Ascending(ids, lo + 1);
      assert forall i :: 0 <= i < |rest| ==> rest[i] in rest;
    }
  }

  /** Any ascending list of the same identifiers is this one, however it was sorted. */
  lemma {:induction false} SortedListsAgree(a: seq<PacketId>, b: seq<PacketId>)
    requires StrictlyAscending(a) && StrictlyAscending(b) && forall id :: id in a <==> id in b
    ensures a == b
  {
    assert |b| > 0 ==> b[0] in b;
    if a != [] {
      assert a[0] in b && b[0] in a;
      var i :| 0 <= i < |b| && b[i] == a[0];
      var j :| 0 <= j < |a| && a[j] == b[0];
      forall id ensures id in a[1..] <==> id in b[1..] {
        assert id in a <==> id == a[0] || id in a[1..];
        assert id in b <==> id == b[0] || id in b[1..];
      }
      SortedListsAgree(a[1..], b[1..]);
    }
  }

  lemma {:induction false} LoadedMapAt(from: nat, keys: seq<PacketId>, i: nat)
    requires StrictlyAscending(keys) && i < |keys|
    ensures keys[i] in LoadedMap(from, keys) && LoadedMap(from, keys)[keys[i]] == from + i
    decreases |keys|
  {
    if i < |keys| - 1 {
      LoadedMapAt(from, keys[..|keys| - 1], i);
    }
  }

  // ---------- the packets of a replay ----------

  /** One PUBLISH per unacknowledged message, in the order of the keys. */
  function Replayed(stored: map<PacketId, Stored>, keys: seq<PacketId>): seq<Packet>
    requires forall id :: id in keys ==> id in stored
  {
    if keys == [] then []
    else
      var n := |keys| - 1;
      assert forall id :: id in keys[..n] ==> id in keys;
      var m := stored[keys[n]];
      Replayed(stored, keys[..n])
      + if m.qos > 0 && m.status.Unacknowledged? then [Publish(keys[n], m.topic, m.payload, 0, m.qos, 0)] else []
  }

  function To(k: ConnRef, packets: seq<Packet>): seq<(ConnRef, Packet)> {
    seq(|packets|, i requires 0 <= i < |packets| => (k, packets[i]))
  }

  function Replays(k: ConnRef, num: nat, keys: seq<PacketId>): seq<Action> {
    seq(|keys|, i requires 0 <= i < |keys| => Action.Replay(k, num, keys[i]))
  }

  /** While `keys[..n]` have been replayed. */
  predicate Midway(st: State, k: ConnRef, num: nat, from: nat, stored: map<PacketId, Stored>, keys: seq<PacketId>, n: nat) {
    && n <= |keys| && (forall id :: id in keys ==> id in stored)
    && Connected(st, Some(k)) && num < |st.sessions| && st.sessions[num].messages == LoadedMap(from, keys)
    && |st.msgs| == from + |keys|
    && forall i :: n <= i < |keys| ==> (assert keys[i] in keys; st.msgs[from + i] == FromStored(stored[keys[i]]))
  }

  lemma OneReplay(st: State, k: ConnRef, num: nat, from: nat, stored: map<PacketId, Stored>, keys: seq<PacketId>, n: nat)
    requires StrictlyAscending(keys) && n < |keys| && Midway(st, k, num, from, stored, keys, n)
    ensures var st' := DoReplay(st, k, num, keys[n]);
            && Midway(st', k, num, from, stored, keys, n + 1)
            && (assert keys[n] in keys;
                var m := stored[keys[n]];
                st'.log == st.log + if m.qos > 0 && m.status.Unacknowledged?
                                    then [Sent(k, Publish(keys[n], m.topic, m.payload, 0, m.qos, 0), Some(from + n))] else [])
  {
    LoadedMapAt(from, keys, n);
    assert keys[n] in keys;
    hide LoadedMap, StrictlyAscending;
  }

  lemma WroteMore(log: seq<LogEntry>, from: nat, k: ConnRef, packets: seq<Packet>, more: seq<LogEntry>, extra: seq<Packet>)
    requires Wrote(log, from, To(k, packets)) && |more| == |extra|
    requires forall i :: 0 <= i < |more| ==> more[i].Sent? && more[i].conn == k && more[i].packet == extra[i]
    ensures Wrote(log + more, from, To(k, packets + extra))
  {
    var all := To(k, packets + extra);
    forall j | from <= j < |log + more| ensures (log + more)[j].Sent? && ((log + more)[j].conn, (log + more)[j].packet) == all[j - from] {
      if j < |log| {
        assert (log + more)[j] == log[j] && all[j - from] == To(k, packets)[j - from];
      } else {
        assert (log + more)[j] == more[j - |log|];
      }
    }
  }

  /** The packets that replaying one key adds. */
  function ReplayedOne(key: PacketId, m: Stored): seq<Packet> {
    if m.qos > 0 && m.status.Unacknowledged? then [Publish(key, m.topic, m.payload, 0, m.qos, 0)] else []
  }

  lemma ReplayedNext(stored: map<PacketId, Stored>, keys: seq<PacketId>, n: nat)
    requires 0 < n <= |keys| && forall id :: id in keys ==> id in stored
    ensures keys[n - 1] in stored && (forall id :: id in keys[..n - 1] ==> id in stored) && (forall id :: id in keys[..n] ==> id in stored)
    ensures Replayed(stored, keys[..n]) == Replayed(stored, keys[..n - 1]) + ReplayedOne(keys[n - 1], stored[keys[n - 1]])
  {
    assert keys[..n][..n - 1] == keys[..n - 1];
    assert keys[n - 1] in keys;
  }

  lemma ReplaysNext(st: State, k: ConnRef, num: nat, keys: seq<PacketId>, n: nat)
    requires 0 < n <= |keys|
    ensures Exec(st, Replays(k, num, keys)[..n]) == DoReplay(Exec(st, Replays(k, num, keys)[..n - 1]), k, num, keys[n - 1])
  {
    var actions := Replays(k, num, keys);
    assert actions[..n][..n - 1] == actions[..n - 1];
  }

  lemma {:induction false} AllReplays(st: State, k: ConnRef, num: nat, from: nat, stored: map<PacketId, Stored>, keys: seq<PacketId>, n: nat)
    requires StrictlyAscending(keys) && n <= |keys| && Midway(st, k, num, from, stored, keys, 0)
    ensures forall id :: id in keys[..n] ==> id in stored
    ensures var st' := Exec(st, Replays(k, num, keys)[..n]);
            && Midway(st', k, num, from, stored, keys, n)
            && st.log <= st'.log && Wrote(st'.log, |st.log|, To(k, Replayed(stored, keys[..n])))
    decreases n
  {
    hide Midway, LoadedMap, StrictlyAscending, DoReplay, Replayed, Exec, Replays, Wrote, To;
    MidwayKeys(st, k, num, from, stored, keys, 0);
    assert forall id :: id in keys[..n] ==> id in keys;
    if n == 0 {
      NothingYet(st, k, num, stored);
      assert Replays(k, num, keys)[..0] == [] && keys[..0] == [];
    } else {
      AllReplays(st, k, num, from, stored, keys, n - 1);
      ReplaysLength(k, num, keys);
      ReplaysNext(st, k, num, keys, n);
      ReplayedNext(stored, keys, n);
      var mid := Exec(st, Replays(k, num, keys)[..n - 1]);
      OneReplay(mid, k, num, from, stored, keys, n - 1);
      var more := DoReplay(mid, k, num, keys[n - 1]).log[|mid.log|..];
      WroteMore(mid.log, |st.log|, k, Replayed(stored, keys[..n - 1]), more, ReplayedOne(keys[n - 1], stored[keys[n - 1]]));
      assert mid.log + more == DoReplay(mid, k, num, keys[n - 1]).log;
    }
  }

  lemma NothingYet(st: State, k: ConnRef, num: nat, stored: map<PacketId, Stored>)
    ensures Exec(st, []) == st && Wrote(st.log, |st.log|, To(k, Replayed(stored, [])))
  {
  }

  lemma MidwayKeys(st: State, k: ConnRef, num: nat, from: nat, stored: map<PacketId, Stored>, keys: seq<PacketId>, n: nat)
    requires Midway(st, k, num, from, stored, keys, n)
    ensures forall id :: id in keys ==> id in stored
  {
  }

  /** CONNECT to a stored session: CONNACK with session present, then one PUBLISH for each message in
      the session store that is unacknowledged, ascending by identifier, and nothing else; a message past
      its PUBREC gets none. */
  lemma {:induction false} ReconnectReplays(st: State, k: ConnRef, id: ClientId, will: Option<Message>)
    requires Connected(st, Some(k)) && id != "" && id in st.disk
    ensures var keys := Ascending(st.disk[id].Keys, 0);
            var st' := Step(st, OnConnect(k, id, false, will));
            && st.log <= st'.log
            && Wrote(st'.log, |st.log|, To(k, [ConnAck(true)] + Replayed(st.disk[id], keys)))
  {
    hide Midway, LoadedMap, Ascending, Replayed, Exec, Replays, Do, Plan, Wrote, To, Connected;
    var stored := st.disk[id];
    var keys := Ascending(stored.Keys, 0);
    var num := |st.sessions|;
    AscendingIsSorted(stored.Keys, 0);
    var head := [Attach(k, id, false, will), Load(num), Send(k, ConnAck(true))];
    ConnectPlan(st, k, id, will);
    IO.ThreeActions(st, head);
    AfterLoad(st, k, id, will);
    var mid := Exec(st, head);
    var plan := head + Replays(k, num, keys);
    H.ExecSplit(st, plan, 3);
    assert plan[..3] == head && plan[3..] == Replays(k, num, keys);
    ReplaysLength(k, num, keys);
    assert Replays(k, num, keys)[..|keys|] == Replays(k, num, keys) && keys[..|keys|] == keys;
    AllReplays(mid, k, num, |st.msgs|, stored, keys, |keys|);
    ConnAckFirst(st.log, mid.log, Step(st, OnConnect(k, id, false, will)).log, k, Replayed(stored, keys));
  }

  lemma ReplaysLength(k: ConnRef, num: nat, keys: seq<PacketId>)
    ensures |Replays(k, num, keys)| == |keys|
  {
  }

  lemma ConnectPlan(st: State, k: ConnRef, id: ClientId, will: Option<Message>)
    requires Connected(st, Some(k)) && id != "" && id in st.disk
    ensures Plan(st, OnConnect(k, id, false, will))
         == [Attach(k, id, false, will), Load(|st.sessions|), Send(k, ConnAck(true))]
            + Replays(k, |st.sessions|, Ascending(st.disk[id].Keys, 0))
  {
    hide Ascending;
  }

  lemma ConnAckFirst(a: seq<LogEntry>, b: seq<LogEntry>, c: seq<LogEntry>, k: ConnRef, packets: seq<Packet>)
    requires b == a + [Sent(k, ConnAck(true), None)] && b <= c && Wrote(c, |b|, To(k, packets))
    ensures a <= c && Wrote(c, |a|, To(k, [ConnAck(true)] + packets))
  {
    var all := To(k, [ConnAck(true)] + packets);
    assert c[|a|] == b[|a|];
    forall j | |a| <= j < |c| ensures c[j].Sent? && (c[j].conn, c[j].packet) == all[j - |a|] {
      if j > |a| {
        assert all[j - |a|] == To(k, packets)[j - |b|];
      }
    }
  }

  lemma AfterLoad(st: State, k: ConnRef, id: ClientId, will: Option<Message>)
    requires Connected(st, Some(k)) && id in st.disk
    ensures var mid := Do(Do(Do(st, Attach(k, id, false, will)), Load(|st.sessions|)), Send(k, ConnAck(true)));
            && Midway(mid, k, |st.sessions|, |st.msgs|, st.disk[id], Ascending(st.disk[id].Keys, 0), 0)
            && mid.log == st.log + [Sent(k, ConnAck(true), None)]
  {
    hide Ascending, LoadedMap;
  }

  // ---------- everything that was queued comes back, once, in order ----------

  lemma {:induction false} ReplayedAscends(stored: map<PacketId, Stored>, keys: seq<PacketId>)
    requires StrictlyAscending(keys) && forall id :: id in keys ==> id in stored
    ensures forall i :: 0 <= i < |Replayed(stored, keys)| ==>
      var p := Replayed(stored, keys)[i];
      p.Publish? && p.id in keys && stored[p.id].status.Unacknowledged? && stored[p.id].qos > 0
    ensures forall i, j :: 0 <= i < j < |Replayed(stored, keys)| ==> Replayed(stored, keys)[i].id < Replayed(stored, keys)[j].id
    decreases |keys|
  {
    if keys != [] {
      var n := |keys| - 1;
      ReplayedAscends(stored, keys[..n]);
      var r := Replayed(stored, keys[..n]);
      forall i | 0 <= i < |r| ensures r[i].id in keys && r[i].id < keys[n] {
        assert r[i].id in keys[..n];
        var j :| 0 <= j < n && keys[..n][j] == r[i].id;
        assert keys[j] == r[i].id;
      }
    }
  }

  lemma {:induction false} ReplayedContains(stored: map<PacketId, Stored>, keys: seq<PacketId>, i: nat) returns (j: nat)
    requires i < |keys| && forall id :: id in keys ==> id in stored
    requires (assert keys[i] in keys; stored[keys[i]].qos > 0 && stored[keys[i]].status.Unacknowledged?)
    ensures j < |Replayed(stored, keys)|
    ensures (assert keys[i] in keys;
             Replayed(stored, keys)[j] == Publish(keys[i], stored[keys[i]].topic, stored[keys[i]].payload, 0, stored[keys[i]].qos, 0))
    decreases |keys|
  {
    var n := |keys| - 1;
    if i < n {
      j := ReplayedContains(stored, keys[..n], i);
    } else {
      j := |Replayed(stored, keys[..n])|;
    }
  }

  function PacketOf(q: QueuedCopy): Packet {
    Publish(IdOf(q), q.topic, q.payload, 0, q.qos, 0)
  }

  predicate OnceAmong(packets: seq<Packet>, p: Packet)
    requires p.Publish?
  {
    exists j :: 0 <= j < |packets| && packets[j] == p
             && forall h :: 0 <= h < |packets| && h != j ==> packets[h].Publish? && packets[h].id != p.id
  }

  lemma OnlyOneAscending(packets: seq<Packet>, j: nat)
    requires j < |packets| && forall i :: 0 <= i < |packets| ==> packets[i].Publish?
    requires forall i, h :: 0 <= i < h < |packets| ==> packets[i].id < packets[h].id
    ensures OnceAmong(packets, packets[j])
  {
    assert forall h :: 0 <= h < |packets| && h != j ==> packets[h].id != packets[j].id;
  }

  lemma StoredIsReplayedOnce(stored: map<PacketId, Stored>, q: QueuedCopy)
    requires q.qos > 0 && IdOf(q) in stored && stored[IdOf(q)] == Stored(q.topic, q.payload, q.qos, 0, Unacknowledged)
    ensures OnceAmong(Replayed(stored, Ascending(stored.Keys, 0)), PacketOf(q))
  {
    hide IdOf, Ascending, Replayed, OnceAmong;
    var keys := Ascending(stored.Keys, 0);
    AscendingIsSorted(stored.Keys, 0);
    ReplayedAscends(stored, keys);
    var h :| 0 <= h < |keys| && keys[h] == IdOf(q);
    var j := ReplayedContains(stored, keys, h);
    OnlyOneAscending(Replayed(stored, keys), j);
  }

  /** All that is held for a client, and all that is queued for it through a run that it stays away, is
      replayed exactly once from the session store it finds. */
  lemma {:induction false} QueuedIsReplayedOnce(st: State, events: seq<Event>, s: SessionRef, held: seq<QueuedCopy>, base: nat, i: nat)
    requires AwayWith(st, s, held, base) && (forall e :: 0 <= e < |events| ==> StaysAway(events[e], s))
    requires Run(st, events).calls <= base + S.PERIOD && i < |held + QueuedRun(st, events, s)|
    ensures var now := Run(st, events);
            && s.id in now.disk
            && OnceAmong(Replayed(now.disk[s.id], Ascending(now.disk[s.id].Keys, 0)), PacketOf((held + QueuedRun(st, events, s))[i]))
  {
    RunAway(st, events, s, held, base);
    hide AwayWith, StaysAway, Run, QueuedRun, OnceAmong, Ascending;
    HeldOnDisk(Run(st, events), s, held + QueuedRun(st, events, s), base, i);
    StoredIsReplayedOnce(Run(st, events).disk[s.id], (held + QueuedRun(st, events, s))[i]);
  }

  lemma HeldOnDisk(st: State, s: SessionRef, qs: seq<QueuedCopy>, base: nat, i: nat)
    requires AwayWith(st, s, qs, base) && i < |qs|
    ensures InStoreOnDisk(st, s, qs[i]) && qs[i].qos > 0
  {
    assert Holding(st, s, qs[i]);
  }

  /** Ascending identifiers are publish order as long as the sequencer did not come round in between. */
  lemma OrderOfIds(st: State, s: SessionRef, qs: seq<QueuedCopy>, base: nat, i: nat, j: nat)
    requires AwayWith(st, s, qs, base) && st.calls <= base + S.PERIOD && i < j < |qs|
    ensures IdOf(qs[i]) < IdOf(qs[j]) <==> qs[i].call / S.PERIOD == qs[j].call / S.PERIOD
    ensures IdOf(qs[i]) != IdOf(qs[j])
  {
    assert base <= qs[i].call < qs[j].call < base + S.PERIOD;
    var a, b := qs[i].call, qs[j].call;
    assert a == a / S.PERIOD * S.PERIOD + a % S.PERIOD && b == b / S.PERIOD * S.PERIOD + b % S.PERIOD;
  }

  // ---------- back again: one statement about what is written ----------

  predicate SentAt(log: seq<LogEntry>, j: nat, k: ConnRef, p: Packet) {
    j < |log| && log[j].Sent? && log[j].conn == k && log[j].packet == p
  }

  ghost predicate SentOnce(log: seq<LogEntry>, from: nat, k: ConnRef, p: Packet) {
    && (exists j :: from <= j && SentAt(log, j, k, p))
    && forall i, j :: from <= i && from <= j && SentAt(log, i, k, p) && SentAt(log, j, k, p) ==> i == j
  }

  /** The earlier copy goes first if and only if the sequencer has not come round between the two. */
  ghost predicate OrderedUpToWrap(log: seq<LogEntry>, from: nat, k: ConnRef, p: QueuedCopy, q: QueuedCopy) {
    forall a, b :: from <= a && from <= b && SentAt(log, a, k, PacketOf(p)) && SentAt(log, b, k, PacketOf(q)) ==>
      (a < b <==> p.call / S.PERIOD == q.call / S.PERIOD)
  }

  /** A CONNACK, then each of the copies exactly once, in publish order up to the wrap. */
  ghost predicate SentBack(log: seq<LogEntry>, from: nat, k: ConnRef, qs: seq<QueuedCopy>) {
    && (qs != [] ==> SentAt(log, from, k, ConnAck(true)))
    && (forall i :: 0 <= i < |qs| ==> SentOnce(log, from, k, PacketOf(qs[i])))
    && (forall i, j :: 0 <= i < j < |qs| ==> OrderedUpToWrap(log, from, k, qs[i], qs[j]))
  }

  lemma WrittenOnce(log: seq<LogEntry>, from: nat, k: ConnRef, packets: seq<Packet>, p: Packet)
    requires Wrote(log, from, To(k, [ConnAck(true)] + packets)) && p.Publish? && OnceAmong(packets, p)
    ensures SentOnce(log, from, k, p)
  {
    var all := To(k, [ConnAck(true)] + packets);
    var j :| 0 <= j < |packets| && packets[j] == p;
    assert all[j + 1] == (k, p);
    assert SentAt(log, from + 1 + j, k, p);
    forall i | from <= i && SentAt(log, i, k, p) ensures i == from + 1 + j {
      assert all[i - from] == (k, p);
      assert i > from;
      assert packets[i - from - 1] == p;
    }
  }

  /** Two of the packets stand in the order of their identifiers. */
  lemma WrittenInOrder(log: seq<LogEntry>, from: nat, k: ConnRef, packets: seq<Packet>, a: nat, b: nat, p: Packet, q: Packet)
    requires Wrote(log, from, To(k, [ConnAck(true)] + packets)) && p.Publish? && q.Publish?
    requires forall i :: 0 <= i < |packets| ==> packets[i].Publish?
    requires forall i, h :: 0 <= i < h < |packets| ==> packets[i].id < packets[h].id
    requires from <= a && from <= b && SentAt(log, a, k, p) && SentAt(log, b, k, q)
    ensures a < b <==> p.id < q.id
  {
    var all := To(k, [ConnAck(true)] + packets);
    assert all[a - from] == (k, p) && all[b - from] == (k, q);
    assert packets[a - from - 1] == p && packets[b - from - 1] == q;
  }

  /** A persistent client that comes back is sent, on its new connection, a CONNACK and then every copy that
      was held or queued for it while it was away, each exactly once; and two of them in publish order if
      and only if the sequencer did not wrap in between. */
  lemma {:induction false} ReconnectSendsQueued(st: State, events: seq<Event>, s: SessionRef, held: seq<QueuedCopy>, base: nat,
                                                k: ConnRef, will: Option<Message>)
    requires AwayWith(st, s, held, base) && (forall e :: 0 <= e < |events| ==> StaysAway(events[e], s))
    requires Run(st, events).calls <= base + S.PERIOD && Connected(Run(st, events), Some(k))
    ensures var qs := held + QueuedRun(st, events, s);
            var now := Run(st, events);
            SentBack(Step(now, OnConnect(k, s.id, false, will)).log, |now.log|, k, qs)
  {
    var qs := held + QueuedRun(st, events, s);
    var now := Run(st, events);
    RunAway(st, events, s, held, base);
    hide Run, QueuedRun, StaysAway, Step;
    ComingBack(now, s, qs, base, k, will);
  }

  lemma {:induction false} ComingBack(now: State, s: SessionRef, qs: seq<QueuedCopy>, base: nat, k: ConnRef, will: Option<Message>)
    requires AwayWith(now, s, qs, base) && now.calls <= base + S.PERIOD && Connected(now, Some(k))
    ensures SentBack(Step(now, OnConnect(k, s.id, false, will)).log, |now.log|, k, qs)
  {
    hide Step, AwayWith, Ascending, Replayed, OnceAmong, SentOnce, Wrote, Connected;
    if qs != [] {
      AwayOnDisk(now, s, qs, base);
      var stored := now.disk[s.id];
      var keys := Ascending(stored.Keys, 0);
      var log := Step(now, OnConnect(k, s.id, false, will)).log;
      ReconnectReplays(now, k, s.id, will);
      AscendingIsSorted(stored.Keys, 0);
      ReplayedAscends(stored, keys);
      ConnAckAt(log, |now.log|, k, Replayed(stored, keys));
      forall i | 0 <= i < |qs| ensures SentOnce(log, |now.log|, k, PacketOf(qs[i])) {
        HeldOnDisk(now, s, qs, base, i);
        StoredIsReplayedOnce(stored, qs[i]);
        WrittenOnce(log, |now.log|, k, Replayed(stored, keys), PacketOf(qs[i]));
      }
      forall i, j | 0 <= i < j < |qs| ensures OrderedUpToWrap(log, |now.log|, k, qs[i], qs[j]) {
        OrderOfIds(now, s, qs, base, i, j);
        forall a, b | |now.log| <= a && |now.log| <= b && SentAt(log, a, k, PacketOf(qs[i])) && SentAt(log, b, k, PacketOf(qs[j]))
          ensures a < b <==> IdOf(qs[i]) < IdOf(qs[j])
        {
          WrittenInOrder(log, |now.log|, k, Replayed(stored, keys), a, b, PacketOf(qs[i]), PacketOf(qs[j]));
        }
      }
    }
  }

  lemma AwayOnDisk(now: State, s: SessionRef, qs: seq<QueuedCopy>, base: nat)
    requires AwayWith(now, s, qs, base) && qs != []
    ensures s.id != "" && s.id in now.disk
  {
    assert Holding(now, s, qs[0]);
  }

  lemma ConnAckAt(log: seq<LogEntry>, from: nat, k: ConnRef, packets: seq<Packet>)
    requires Wrote(log, from, To(k, [ConnAck(true)] + packets))
    ensures SentAt(log, from, k, ConnAck(true))
  {
    assert To(k, [ConnAck(true)] + packets)[0] == (k, ConnAck(true));
  }
}

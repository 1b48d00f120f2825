/** What the broker does with each kind of event: what it writes, and what becomes of connections, stores,
    sessions and the session store. */
module Reactions {
  import opened Base
  import opened Filters
  import opened Sessions
  import opened Delivery
  import opened BrokerInvariant
  import opened FanOut
  import B = Broker
  import DE = Detaching
  import H = Handshake
  import I = IndexSpec
  import P = Packets
  import R = Replay
  import RE = Reaching
  import T = TopicTree
  import TH = ToldHistory
  import U = TreeUpdates
  import W = Wiring

  /** A live connection with a session. */
  predicate Serves(st: State, k: ConnRef, s: SessionRef) {
    Connected(st, Some(k)) && st.conns[k].session == Some(s)
  }

  // ---------- connections ----------

  lemma Accepted(st: State)
    ensures Step(st, Accept) == st.(conns := st.conns + [Conn("", true, None, None)], clock := st.clock + 1)
  {
    B.ExecSingle(st, Open);
  }

  /** Nothing is read from a closed connection. */
  lemma ClosedIsIgnored(st: State, e: Event)
    requires !e.Accept? && !e.OnTick? && !Connected(st, Some(e.conn))
    ensures Step(st, e) == st.(clock := st.clock + 1)
  {
    B.ExecNone(st);
  }

  function Closed(st: State, k: ConnRef): seq<Conn>
    requires k < |st.conns|
  {
    st.conns[k := st.conns[k].(connected := false)]
  }

  /** A connection that has made no CONNECT is closed by anything else, and by a CONNECT without an id. */
  lemma NamelessIsClosed(st: State, e: Event)
    requires !e.Accept? && !e.OnTick? && Connected(st, Some(e.conn)) && st.conns[e.conn].session.None?
    requires e.OnConnect? ==> e.client == ""
    ensures Step(st, e) == st.(conns := Closed(st, e.conn), clock := st.clock + 1)
  {
    B.ExecSingle(st, Close(e.conn));
  }

  /** PINGREQ is answered with PINGRESP. */
  lemma Pinged(st: State, k: ConnRef, s: SessionRef)
    requires Serves(st, k, s)
    ensures Step(st, OnPingReq(k)) == st.(log := st.log + [Sent(k, PingResp, None)], clock := st.clock + 1)
  {
    assert Plan(st, OnPingReq(k)) == [Send(k, PingResp)];
    B.ExecSingle(st, Send(k, PingResp));
  }

  // ---------- CONNECT ----------

  /** The new session object, and what the connection is from then on. */
  function Joining(st: State, k: ConnRef, id: ClientId, clean: bool, will: Option<Message>): State
    requires k < |st.conns|
  {
    var ref := SessionRef(id, |st.sessions|, clean);
    st.(sessions := st.sessions + [SessionState(ref, Some(k), map[])],
        conns := st.conns[k := Conn(id, st.conns[k].connected, Some(ref), if will.Some? then will else st.conns[k].will)])
  }

  lemma AttachJoins(st: State, k: ConnRef, id: ClientId, clean: bool, will: Option<Message>)
    requires k < |st.conns|
    ensures Do(st, Attach(k, id, clean, will)) == Joining(st, k, id, clean, will)
  {
  }

  /** A clean CONNECT: the stored session goes, a new empty one is made, CONNACK without session present. */
  lemma CleanConnect(st: State, k: ConnRef, id: ClientId, will: Option<Message>)
    requires Connected(st, Some(k)) && id != ""
    ensures Step(st, OnConnect(k, id, true, will))
         == Joining(st, k, id, true, will).(disk := st.disk - {id}, log := st.log + [Sent(k, ConnAck(false), None)], clock := st.clock + 1)
  {
    assert Plan(st, OnConnect(k, id, true, will)) == [Attach(k, id, true, will), Erase(id), Send(k, ConnAck(false))];
    B.ExecThree(st, Attach(k, id, true, will), Erase(id), Send(k, ConnAck(false)));
    AttachJoins(st, k, id, true, will);
    hide Plan, Exec;
  }

  /** A CONNECT of a persistent client that is not known: an empty session is stored. */
  lemma FirstConnect(st: State, k: ConnRef, id: ClientId, will: Option<Message>)
    requires Connected(st, Some(k)) && id != "" && id !in st.disk
    ensures Step(st, OnConnect(k, id, false, will))
         == Joining(st, k, id, false, will).(disk := st.disk[id := map[]], log := st.log + [Sent(k, ConnAck(false), None)], clock := st.clock + 1)
  {
    var num := |st.sessions|;
    assert Plan(st, OnConnect(k, id, false, will)) == [Attach(k, id, false, will), Save(num), Send(k, ConnAck(false))];
    B.ExecThree(st, Attach(k, id, false, will), Save(num), Send(k, ConnAck(false)));
    AttachJoins(st, k, id, false, will);
    assert Snapshot(st.msgs, map[]) == map[];
    hide Plan, Exec, Snapshot;
  }

  lemma {:induction false} ReplaysKeep(st: State, k: ConnRef, num: nat, keys: seq<PacketId>, n: nat)
    requires n <= |keys|
    ensures |R.Replays(k, num, keys)| == |keys|
    ensures var st' := Exec(st, R.Replays(k, num, keys)[..n]);
            st'.disk == st.disk && st'.sessions == st.sessions && st'.conns == st.conns && st'.topics == st.topics && st'.calls == st.calls
    decreases n
  {
    R.ReplaysLength(k, num, keys);
    if n > 0 {
      ReplaysKeep(st, k, num, keys, n - 1);
      R.ReplaysNext(st, k, num, keys, n);
      OneReplayKeeps(Exec(st, R.Replays(k, num, keys)[..n - 1]), k, num, keys[n - 1]);
      hide Exec, R.Replays, DoReplay;
    } else {
      assert R.Replays(k, num, keys)[..0] == [];
    }
  }

  lemma OneReplayKeeps(st: State, k: ConnRef, num: nat, id: PacketId)
    ensures var st' := DoReplay(st, k, num, id);
            st'.disk == st.disk && st'.sessions == st.sessions && st'.conns == st.conns && st'.topics == st.topics && st'.calls == st.calls
  {
  }

  /** A CONNECT of a persistent client that is known: its new session holds exactly the identifiers of the stored
      one, which stays; what is written, and what is taken up again, is in Replay and Resending. */
  lemma KnownConnect(st: State, k: ConnRef, id: ClientId, will: Option<Message>)
    requires Connected(st, Some(k)) && id != "" && id in st.disk
    ensures var st' := Step(st, OnConnect(k, id, false, will));
            var joined := Joining(st, k, id, false, will);
            && st'.conns == joined.conns && st'.disk == st.disk && st'.topics == st.topics && st'.calls == st.calls
            && |st'.sessions| == |joined.sessions|
            && (forall n :: 0 <= n < |st.sessions| ==> st'.sessions[n] == st.sessions[n])
            && st'.sessions[|st.sessions|] == joined.sessions[|st.sessions|].(messages := st'.sessions[|st.sessions|].messages)
            && st'.sessions[|st.sessions|].messages.Keys == st.disk[id].Keys
  {
    hide Ascending, LoadedMap, Exec, R.Replays, Plan;
    var keys := Ascending(st.disk[id].Keys, 0);
    var num := |st.sessions|;
    var a, b, c := Attach(k, id, false, will), Load(num), Send(k, ConnAck(true));
    R.ConnectPlan(st, k, id, will);
    B.ExecJoin(st, [a, b, c], R.Replays(k, num, keys));
    B.ExecThree(st, a, b, c);
    AttachJoins(st, k, id, false, will);
    ReplaysKeep(Exec(st, [a, b, c]), k, num, keys, |keys|);
    assert R.Replays(k, num, keys)[..|keys|] == R.Replays(k, num, keys);
    R.AscendingIsSorted(st.disk[id].Keys, 0);
    LoadedKeys(|st.msgs|, keys);
  }

  lemma {:induction false} LoadedKeys(base: nat, keys: seq<PacketId>)
    ensures forall id :: id in LoadedMap(base, keys) <==> id in keys
  {
    if keys != [] {
      LoadedKeys(base, keys[..|keys| - 1]);
      assert keys == keys[..|keys| - 1] + [keys[|keys| - 1]];
    }
  }

  // ---------- acknowledgements ----------

  /** Its message object, if there is one, has the status. */
  predicate HasStatus(st: State, messages: map<PacketId, MsgRef>, id: PacketId, status: Status) {
    id in messages && messages[id] < |st.msgs| ==> st.msgs[messages[id]].status == status
  }

  /** Nothing else is touched by an acknowledgement. */
  predicate AckFrame(st: State, st': State, s: SessionRef) {
    && st'.topics == st.topics && st'.conns == st.conns && st'.calls == st.calls && st'.retries == st.retries
    && |st'.msgs| == |st.msgs| && |st'.sessions| == |st.sessions|
    && (forall m :: 0 <= m < |st.msgs| ==> st'.msgs[m] == st.msgs[m].(status := st'.msgs[m].status))
    && (forall n :: 0 <= n < |st.sessions| && n != s.num ==> st'.sessions[n] == st.sessions[n])
    && (s.num < |st.sessions| ==> st'.sessions[s.num] == st.sessions[s.num].(messages := st'.sessions[s.num].messages))
    && (forall c :: c != s.id && c in st.disk ==> c in st'.disk && st'.disk[c] == st.disk[c])
  }

  /** What the session store holds of a session, unless it is clean. */
  predicate IsSaved(st: State, s: SessionRef) {
    && s.num < |st.sessions| && s.id in st.disk && st.disk[s.id].Keys == st.sessions[s.num].messages.Keys
    && forall i :: i in st.disk[s.id] ==>
         && st.sessions[s.num].messages[i] < |st.msgs|
         && var m := st.msgs[st.sessions[s.num].messages[i]];
            st.disk[s.id][i] == Stored(m.topic, m.payload, m.qos, m.retain, m.status)
  }

  lemma SavedIsSaved(st: State, s: SessionRef)
    requires RefOk(st, s) && SessionOk(st, s.num)
    ensures IsSaved(Saved(st, s.num), s)
  {
  }

  lemma AckSessionIs(st: State, s: SessionRef, id: PacketId, status: AckStatus, delete: bool)
    requires RefOk(st, s)
    ensures var st2 := AckedSession(st, s.num, id, status, delete);
            DoAckSession(st, s.num, id, status, delete, true) == if s.clean then st2 else Saved(st2, s.num)
  {
    hide AckedSession, Saved;
  }

  /** Without the save: both stores have lost the entry or kept it, and their messages have the status. */
  lemma AckedInStores(st: State, s: SessionRef, id: PacketId, status: AckStatus, delete: bool)
    requires StoreOk(st) && SessionsOk(st) && RefOk(st, s)
    ensures var st' := AckedSession(DoAckStored(st, id, status, delete), s.num, id, status, delete);
            && AckFrame(st, st', s) && RefOk(st', s) && SessionOk(st', s.num)
            && HasStatus(st', st.store, id, status) && HasStatus(st', st.sessions[s.num].messages, id, status)
            && st'.store == (if delete then st.store - {id} else st.store)
            && st'.sessions[s.num].messages == (if delete then st.sessions[s.num].messages - {id} else st.sessions[s.num].messages)
            && st'.disk == st.disk && st'.log == st.log && st'.clock == st.clock
  {
    hide WithStatus, Saved, DoAckStored, AckedSession, SessionsOk, StoreOk;
    var st1 := DoAckStored(st, id, status, delete);
    SessionOf(st, s.num);
    AckedStore(st, id, status, delete);
    StoredAckOk(st, id, status, delete, s.num);
    AckedOne(st1, s.num, id, status, delete);
    AckedSessionOk(st1, s.num, id, status, delete);
    hide SessionOk;
  }

  lemma SessionOf(st: State, n: nat)
    requires SessionsOk(st) && n < |st.sessions|
    ensures SessionOk(st, n)
  {
  }

  lemma StoredAckOk(st: State, id: PacketId, status: AckStatus, delete: bool, n: nat)
    requires n < |st.sessions| && SessionOk(st, n)
    ensures n < |DoAckStored(st, id, status, delete).sessions| && SessionOk(DoAckStored(st, id, status, delete), n)
  {
    SessionKeptByAck(st, n, id, status, delete, false, n);
  }

  lemma AckedBoth(st: State, s: SessionRef, id: PacketId, status: AckStatus, delete: bool)
    requires StoreOk(st) && SessionsOk(st) && RefOk(st, s)
    ensures var st' := DoAckSession(DoAckStored(st, id, status, delete), s.num, id, status, delete, true);
            && AckFrame(st, st', s)
            && HasStatus(st', st.store, id, status) && HasStatus(st', st.sessions[s.num].messages, id, status)
            && st'.store == (if delete then st.store - {id} else st.store)
            && st'.sessions[s.num].messages == (if delete then st.sessions[s.num].messages - {id} else st.sessions[s.num].messages)
            && (if s.clean then st'.disk == st.disk else IsSaved(st', s))
            && st'.log == st.log && st'.clock == st.clock
  {
    hide Saved, DoAckStored, AckedSession, SessionsOk, StoreOk, SessionOk;
    var st1 := DoAckStored(st, id, status, delete);
    var st2 := AckedSession(st1, s.num, id, status, delete);
    AckedInStores(st, s, id, status, delete);
    StoredAckRefs(st, id, status, delete);
    AckSessionIs(st1, s, id, status, delete);
    hide DoAckSession;
    if !s.clean {
      SavedKeepsRest(st2, s.num);
      SavedIsSaved(st2, s);
      SavedElsewhere(st2, s.num);
      hide IsSaved;
    }
  }

  lemma StoredAckRefs(st: State, id: PacketId, status: AckStatus, delete: bool)
    ensures DoAckStored(st, id, status, delete).sessions == st.sessions
  {
  }

  lemma AckedSessionOk(st: State, num: nat, id: PacketId, status: AckStatus, delete: bool)
    requires num < |st.sessions| && SessionOk(st, num)
    ensures num < |AckedSession(st, num, id, status, delete).sessions| && SessionOk(AckedSession(st, num, id, status, delete), num)
  {
    hide WithStatus;
    if id in st.sessions[num].messages {
      SessionSurvivesStatus(st, st.sessions[num].messages[id], status, num);
    }
  }

  lemma SavedElsewhere(st: State, num: nat)
    requires num < |st.sessions|
    ensures forall c :: c != st.sessions[num].ref.id && c in st.disk ==> c in Saved(st, num).disk && Saved(st, num).disk[c] == st.disk[c]
  {
  }

  lemma AckedStore(st: State, id: PacketId, status: AckStatus, delete: bool)
    ensures var st' := DoAckStored(st, id, status, delete);
            && st' == st.(msgs := st'.msgs, store := if delete then st.store - {id} else st.store)
            && |st'.msgs| == |st.msgs| && HasStatus(st', st.store, id, status)
            && forall m :: 0 <= m < |st.msgs| ==> st'.msgs[m] == st.msgs[m].(status := st'.msgs[m].status)
                                                  && (st'.msgs[m].status == st.msgs[m].status || st'.msgs[m].status == status)
  {
    if id !in st.store {
      assert st.store - {id} == st.store;
    }
  }

  lemma AckedOne(st: State, num: nat, id: PacketId, status: AckStatus, delete: bool)
    requires num < |st.sessions|
    ensures var st' := AckedSession(st, num, id, status, delete);
            && st' == st.(msgs := st'.msgs, sessions := st'.sessions)
            && |st'.msgs| == |st.msgs| && |st'.sessions| == |st.sessions| && HasStatus(st', st.sessions[num].messages, id, status)
            && (forall m :: 0 <= m < |st.msgs| ==> st'.msgs[m] == st.msgs[m].(status := st'.msgs[m].status)
                                                   && (st'.msgs[m].status == st.msgs[m].status || st'.msgs[m].status == status))
            && (forall n :: 0 <= n < |st.sessions| && n != num ==> st'.sessions[n] == st.sessions[n])
            && st'.sessions[num] == st.sessions[num].(messages := if delete then st.sessions[num].messages - {id} else st.sessions[num].messages)
  {
    if id !in st.sessions[num].messages {
      assert st.sessions[num].messages - {id} == st.sessions[num].messages;
    }
  }

  predicate Completing(e: Event) {
    e.OnPubAck? || e.OnPubComp?
  }

  lemma AckPlanned(st: State, k: ConnRef, s: SessionRef, e: Event)
    requires (Completing(e) || e.OnPubRec?) && e.conn == k && Serves(st, k, s)
    ensures var status: AckStatus := if e.OnPubAck? then PubackReceived else if e.OnPubRec? then PubrecReceived else PubcompReceived;
            var acked := DoAckSession(DoAckStored(st, e.id, status, !e.OnPubRec?), s.num, e.id, status, !e.OnPubRec?, true);
            Step(st, e) == acked.(log := acked.log + (if e.OnPubRec? then [Sent(k, PubRel(e.id), None)] else []), clock := acked.clock + 1)
  {
    hide Exec, DoAckSession, DoAckStored;
    var status: AckStatus := if e.OnPubAck? then PubackReceived else if e.OnPubRec? then PubrecReceived else PubcompReceived;
    var a, b := AckStored(e.id, status, !e.OnPubRec?), AckSession(s.num, e.id, status, !e.OnPubRec?, true);
    if e.OnPubRec? {
      assert Plan(st, e) == [a, b, Send(k, PubRel(e.id))];
      B.ExecThree(st, a, b, Send(k, PubRel(e.id)));
    } else {
      assert Plan(st, e) == [a, b];
      B.ExecTwo(st, a, b);
    }
    AckKeepsClock(st, s.num, e.id, status, !e.OnPubRec?);
    hide Plan;
  }

  lemma AckKeepsClock(st: State, num: nat, id: PacketId, status: AckStatus, delete: bool)
    ensures DoAckSession(DoAckStored(st, id, status, delete), num, id, status, delete, true).clock == st.clock
  {
    hide WithStatus, Snapshot;
  }

  /** The log and the clock do not matter. */
  lemma SameAck(st: State, st': State, log: seq<LogEntry>, clock: int, s: SessionRef, id: PacketId, status: Status)
    ensures var after := st'.(log := log, clock := clock);
            && (AckFrame(st, st', s) ==> AckFrame(st, after, s)) && (IsSaved(st', s) ==> IsSaved(after, s))
            && (forall messages :: HasStatus(st', messages, id, status) ==> HasStatus(after, messages, id, status))
  {
  }

  /** Both acknowledgements, and what is written after them. */
  lemma AckedAfter(st: State, s: SessionRef, id: PacketId, status: AckStatus, delete: bool, more: seq<LogEntry>)
    requires StoreOk(st) && SessionsOk(st) && RefOk(st, s)
    ensures var acked := DoAckSession(DoAckStored(st, id, status, delete), s.num, id, status, delete, true);
            var st' := acked.(log := acked.log + more, clock := acked.clock + 1);
            && AckFrame(st, st', s) && st'.log == st.log + more
            && HasStatus(st', st.store, id, status) && HasStatus(st', st.sessions[s.num].messages, id, status)
            && st'.store == (if delete then st.store - {id} else st.store)
            && st'.sessions[s.num].messages == (if delete then st.sessions[s.num].messages - {id} else st.sessions[s.num].messages)
            && (if s.clean then st'.disk == st.disk
                else IsSaved(st', s) && (id in st'.disk[s.id] ==> !delete && st'.disk[s.id][id].status == status))
  {
    var acked := DoAckSession(DoAckStored(st, id, status, delete), s.num, id, status, delete, true);
    var st' := acked.(log := acked.log + more, clock := acked.clock + 1);
    AckedBoth(st, s, id, status, delete);
    hide DoAckSession, DoAckStored, StoreOk, SessionsOk;
    SameAck(st, acked, acked.log + more, acked.clock + 1, s, id, status);
    if !s.clean {
      SavedStatus(st', s, id, status, delete);
    }
    hide AckFrame, HasStatus, IsSaved;
  }

  lemma SavedStatus(st: State, s: SessionRef, id: PacketId, status: Status, gone: bool)
    requires IsSaved(st, s) && if gone then id !in st.sessions[s.num].messages else HasStatus(st, st.sessions[s.num].messages, id, status)
    ensures id in st.disk[s.id] ==> !gone && st.disk[s.id][id].status == status
  {
  }

  /** A PUBACK or PUBCOMP completes its message: it is gone from the broker's store, from the session, and, for a
      persistent client, from the session store; nothing is written. */
  lemma Completed(st: State, k: ConnRef, s: SessionRef, e: Event)
    requires Inv(st) && Serves(st, k, s) && Completing(e) && e.conn == k
    ensures var st' := Step(st, e);
            var status := if e.OnPubAck? then PubackReceived else PubcompReceived;
            && AckFrame(st, st', s) && st'.log == st.log && s.num < |st.sessions|
            && HasStatus(st', st.store, e.id, status) && HasStatus(st', st.sessions[s.num].messages, e.id, status)
            && st'.store == st.store - {e.id} && st'.sessions[s.num].messages == st.sessions[s.num].messages - {e.id}
            && (if s.clean then st'.disk == st.disk else IsSaved(st', s) && e.id !in st'.disk[s.id])
  {
    hide Inv, Step, DoAckSession, DoAckStored, StoreOk, SessionsOk, AckFrame, HasStatus, IsSaved;
    AckPlanned(st, k, s, e);
    AckStart(st, k, s);
    AckedAfter(st, s, e.id, if e.OnPubAck? then PubackReceived else PubcompReceived, true, []);
  }

  lemma AckStart(st: State, k: ConnRef, s: SessionRef)
    requires Inv(st) && Serves(st, k, s)
    ensures StoreOk(st) && SessionsOk(st) && RefOk(st, s)
  {
    assert ConnOk(st, k);
  }

  /** A PUBREC keeps its message where it is, marks it, in the session store too, and is answered with PUBREL. */
  lemma Received(st: State, k: ConnRef, s: SessionRef, id: PacketId)
    requires Inv(st) && Serves(st, k, s)
    ensures var st' := Step(st, OnPubRec(k, id));
            && AckFrame(st, st', s) && st'.log == st.log + [Sent(k, PubRel(id), None)] && s.num < |st.sessions|
            && HasStatus(st', st.store, id, PubrecReceived) && HasStatus(st', st.sessions[s.num].messages, id, PubrecReceived)
            && st'.store == st.store && st'.sessions[s.num].messages == st.sessions[s.num].messages
            && (if s.clean then st'.disk == st.disk
                else IsSaved(st', s) && (id in st'.disk[s.id] ==> st'.disk[s.id][id].status == PubrecReceived))
  {
    hide Inv, Step, DoAckSession, DoAckStored, StoreOk, SessionsOk, AckFrame, HasStatus, IsSaved;
    AckPlanned(st, k, s, OnPubRec(k, id));
    AckStart(st, k, s);
    AckedAfter(st, s, id, PubrecReceived, false, [Sent(k, PubRel(id), None)]);
  }

  /** A PUBREL ends the wait of an inbound message, without a save, and is answered with PUBCOMP. */
  lemma Released(st: State, k: ConnRef, s: SessionRef, id: PacketId)
    requires Inv(st) && Serves(st, k, s)
    ensures var st' := Step(st, OnPubRel(k, id));
            && AckFrame(st, st', s) && st'.log == st.log + [Sent(k, PubComp(id), None)] && s.num < |st.sessions|
            && HasStatus(st', st.sessions[s.num].messages, id, PubrelReceived)
            && st'.store == st.store && st'.sessions[s.num].messages == st.sessions[s.num].messages - {id}
            && st'.disk == st.disk
  {
    AckStart(st, k, s);
    var a := AckSession(s.num, id, PubrelReceived, true, false);
    assert Plan(st, OnPubRel(k, id)) == [a, Send(k, PubComp(id))];
    B.ExecTwo(st, a, Send(k, PubComp(id)));
    AckedOne(st, s.num, id, PubrelReceived, true);
    hide Plan, Exec, AckedSession, StoreOk, SessionsOk;
  }

  // ---------- leaving ----------

  /** A persistent or clean session is left: the index first. */
  function Left(st: State, k: ConnRef, s: SessionRef, graceful: bool): State
    requires k < |st.conns|
  {
    DoIndex(st.(conns := Closed(st, k)), I.UnsubscribeAll(s, graceful))
  }

  /** What leaving does to the rest: on the index, the client's entries go from the first level if it said
      DISCONNECT or the session is clean, from further down if the session is clean; sessions keep all but
      their connection; stores, session store and retry loops stay. */
  lemma LeftParts(st: State, k: ConnRef, s: SessionRef, graceful: bool, p: Path)
    requires Inv(st) && k < |st.conns|
    ensures var st' := Left(st, k, s, graceful);
            && st' == st.(conns := Closed(st, k), topics := st'.topics, sessions := st'.sessions)
            && |st'.sessions| == |st.sessions|
            && (forall n :: 0 <= n < |st.sessions| ==> st'.sessions[n] == st.sessions[n] || st'.sessions[n] == st.sessions[n].(client := None))
            && T.RetainedAt(st'.topics, p) == T.RetainedAt(st.topics, p)
            && T.SubsAt(st'.topics, p)
               == if s.clean || (graceful && |p| == 1) then T.Remove(T.SubsAt(st.topics, p), s.id) else T.SubsAt(st.topics, p)
  {
    var mid := st.(conns := Closed(st, k));
    var op := I.UnsubscribeAll(s, graceful);
    W.IndexedSessions(mid, op);
    H.IndexKeepsRest(mid, op);
    TopicsLeft(st, s, graceful, p);
    hide DoIndex, I.RootOk;
    assert DoIndex(mid, op).topics == I.Apply(st.topics, op) by { TopicsOfDo(mid, Index(op)); }
  }

  /** Exactly the sessions of the client's entries that are left behind lose their connection. */
  lemma LeftSessions(st: State, k: ConnRef, s: SessionRef, graceful: bool, n: nat)
    requires Inv(st) && k < |st.conns| && n < |st.sessions|
    ensures n < |Left(st, k, s, graceful).sessions|
    ensures Left(st, k, s, graceful).sessions[n]
         == if exists i :: 0 <= i < |st.topics.kids| && DE.LeavesEntry(st.topics.kids[i], s.id, n, graceful || s.clean, s.clean)
            then st.sessions[n].(client := None) else st.sessions[n]
  {
    assert T.WellFormed(st.topics);
    hide DE.LeavesEntry, T.WellFormed, DE.DetachKids;
    WellFormedKids(st.topics);
    DE.DetachKidsExactly(st.sessions, st.topics.kids, s.id, graceful || s.clean, s.clean, n);
  }

  lemma WellFormedKids(t: T.Tree)
    requires T.WellFormed(t)
    ensures forall i :: 0 <= i < |t.kids| ==> T.WellFormed(t.kids[i])
  {
  }

  lemma TopicsLeft(st: State, s: SessionRef, graceful: bool, p: Path)
    requires Inv(st)
    ensures var root := I.Apply(st.topics, I.UnsubscribeAll(s, graceful));
            && T.RetainedAt(root, p) == T.RetainedAt(st.topics, p)
            && T.SubsAt(root, p)
               == if s.clean || (graceful && |p| == 1) then T.Remove(T.SubsAt(st.topics, p), s.id) else T.SubsAt(st.topics, p)
  {
    U.DropAllFlat(st.topics, s.id, graceful || s.clean, s.clean, p);
  }

  /** DISCONNECT: the connection closes, nothing is written, and the will is not published. */
  lemma Disconnected(st: State, k: ConnRef, s: SessionRef)
    requires Serves(st, k, s)
    ensures Step(st, OnDisconnect(k)) == Left(st, k, s, true).(clock := st.clock + 1)
    ensures Left(st, k, s, true).log == st.log && Left(st, k, s, true).clock == st.clock
  {
    var op := I.UnsubscribeAll(s, true);
    assert Plan(st, OnDisconnect(k)) == [Close(k), Index(op)];
    B.ExecTwo(st, Close(k), Index(op));
    H.IndexKeepsRest(st.(conns := Closed(st, k)), op);
    hide Plan, Exec, DoIndex;
  }

  /** Whatever ends a connection without a DISCONNECT: an error, a PUBLISH with wildcards in its topic, a CONNECT
      without an id. */
  predicate Drops(e: Event) {
    e.OnError? || (e.OnPublish? && !ValidTopicName(e.topic)) || (e.OnConnect? && e.client == "")
  }

  /** Without a will: the same, but for the entries on the first level. */
  lemma LostWithoutWill(st: State, e: Event, s: SessionRef)
    requires Drops(e) && Serves(st, e.conn, s) && st.conns[e.conn].will.None?
    ensures Step(st, e) == Left(st, e.conn, s, false).(clock := st.clock + 1)
    ensures Left(st, e.conn, s, false).log == st.log && Left(st, e.conn, s, false).clock == st.clock
  {
    var op := I.UnsubscribeAll(s, false);
    assert Plan(st, e) == [Close(e.conn), Index(op)];
    B.ExecTwo(st, Close(e.conn), Index(op));
    H.IndexKeepsRest(st.(conns := Closed(st, e.conn)), op);
    hide Plan, Exec, DoIndex;
  }

  /** With a will, it is then published: to the entries that are left, one copy each in their order, with RETAIN
      clear, at the smaller QoS. */
  lemma LostPublishesWill(st: State, e: Event, s: SessionRef, w: Message)
    requires Drops(e) && Serves(st, e.conn, s) && st.conns[e.conn].will == Some(w) && ValidTopicName(w.topic)
    ensures var left := Left(st, e.conn, s, false);
            Wrote(Step(st, e).log, |st.log|, Writes(left, Recipients(T.Match(left.topics, Split(w.topic))), w.topic, w.payload, w.qos))
  {
    hide PlanPublish, Exec, T.Match, Recipients, Writes, I.Apply, Wrote, Split, DoIndex;
    var op := I.UnsubscribeAll(s, false);
    var left := Left(st, e.conn, s, false);
    var rest := PlanPublish(I.Apply(st.topics, op), w.topic, w.payload, w.qos, w.retain, st.clock);
    WillPlanned(st, e, s, w);
    B.ExecJoin(st, [Close(e.conn), Index(op)], rest);
    B.ExecTwo(st, Close(e.conn), Index(op));
    LeftTopics(st, e.conn, s);
    RE.PublishWrites(left, w.topic, w.payload, w.qos, w.retain);
  }

  lemma LeftTopics(st: State, k: ConnRef, s: SessionRef)
    requires k < |st.conns|
    ensures var left := Left(st, k, s, false);
            && Do(Do(st, Close(k)), Index(I.UnsubscribeAll(s, false))) == left
            && left.topics == I.Apply(st.topics, I.UnsubscribeAll(s, false)) && left.clock == st.clock && left.log == st.log
  {
    hide I.Apply;
    var mid := st.(conns := Closed(st, k));
    H.IndexKeepsRest(mid, I.UnsubscribeAll(s, false));
    TopicsOfDo(mid, Index(I.UnsubscribeAll(s, false)));
  }

  lemma WillPlanned(st: State, e: Event, s: SessionRef, w: Message)
    requires Drops(e) && Serves(st, e.conn, s) && st.conns[e.conn].will == Some(w)
    ensures var op := I.UnsubscribeAll(s, false);
            Plan(st, e) == [Close(e.conn), Index(op)] + PlanPublish(I.Apply(st.topics, op), w.topic, w.payload, w.qos, w.retain, st.clock)
  {
    hide PlanPublish, I.Apply;
  }

  // ---------- PUBLISH ----------

  /** The receipt of a PUBLISH, by its QoS. */
  function Receipt(k: ConnRef, qos: byte, id: PacketId): seq<LogEntry> {
    if qos == 1 then [Sent(k, PubAck(id), None)] else if qos == 2 then [Sent(k, PubRec(id), None)] else []
  }

  /** A marked duplicate of a PUBLISH that waits for its PUBREL gets its PUBREC again, and that is all. */
  lemma DuplicateAnswered(st: State, k: ConnRef, s: SessionRef, topic: Bytes, payload: Bytes, flags: P.PublishFlags, id: PacketId)
    requires Serves(st, k, s) && ValidTopicName(topic) && TH.Duplicate(st, s, flags, id)
    ensures Step(st, OnPublish(k, topic, payload, flags, id))
         == st.(log := st.log + [Sent(k, PubRec(id), None)], clock := st.clock + 1)
  {
    assert Plan(st, OnPublish(k, topic, payload, flags, id)) == [Send(k, PubRec(id))];
    B.ExecSingle(st, Send(k, PubRec(id)));
    hide Plan, Exec;
  }

  /** Before the copies: the receipt is written, and a message of QoS 2 waits in the session for its PUBREL. */
  function Receiving(st: State, k: ConnRef, s: SessionRef, topic: Bytes, payload: Bytes, qos: byte, id: PacketId): State {
    var held := if qos == 2 then DoHold(st, s.num, id, topic, payload) else st;
    held.(log := st.log + Receipt(k, qos, id) + [Forwarded(k, id, qos, topic, payload)])
  }

  function HeadOf(k: ConnRef, s: SessionRef, topic: Bytes, payload: Bytes, qos: byte, id: PacketId): seq<Action> {
    (if qos == 1 then [Send(k, PubAck(id))]
     else if qos == 2 then [Hold(s.num, id, topic, payload), Send(k, PubRec(id))]
     else []) + [Forward(k, id, qos, topic, payload)]
  }

  lemma HeadReceives(st: State, k: ConnRef, s: SessionRef, topic: Bytes, payload: Bytes, qos: byte, id: PacketId)
    ensures Exec(st, HeadOf(k, s, topic, payload, qos, id)) == Receiving(st, k, s, topic, payload, qos, id)
  {
    hide Exec, Do, DoHold;
    var last := Forward(k, id, qos, topic, payload);
    SmallActions(st, k, id, last, s.num, topic, payload);
    if qos == 1 {
      B.ExecTwo(st, Send(k, PubAck(id)), last);
      assert HeadOf(k, s, topic, payload, qos, id) == [Send(k, PubAck(id)), last];
      SmallActions(Logged(st, Sent(k, PubAck(id), None)), k, id, last, s.num, topic, payload);
    } else if qos == 2 {
      var held := DoHold(st, s.num, id, topic, payload);
      B.ExecThree(st, Hold(s.num, id, topic, payload), Send(k, PubRec(id)), last);
      assert HeadOf(k, s, topic, payload, qos, id) == [Hold(s.num, id, topic, payload), Send(k, PubRec(id)), last];
      SmallActions(held, k, id, last, s.num, topic, payload);
      SmallActions(Logged(held, Sent(k, PubRec(id), None)), k, id, last, s.num, topic, payload);
      HoldKeepsLog(st, s.num, id, topic, payload);
    } else {
      assert HeadOf(k, s, topic, payload, qos, id) == [last];
      B.ExecSingle(st, last);
    }
  }

  lemma HoldKeepsLog(st: State, num: nat, id: PacketId, topic: Bytes, payload: Bytes)
    ensures DoHold(st, num, id, topic, payload).log == st.log
  {
  }

  lemma SmallActions(st: State, k: ConnRef, id: PacketId, last: Action, num: nat, topic: Bytes, payload: Bytes)
    requires last.Forward?
    ensures Do(st, Send(k, PubAck(id))) == Logged(st, Sent(k, PubAck(id), None))
    ensures Do(st, Send(k, PubRec(id))) == Logged(st, Sent(k, PubRec(id), None))
    ensures Do(st, last) == Logged(st, Forwarded(last.conn, last.id, last.qos, last.topic, last.payload))
    ensures Do(st, Hold(num, id, topic, payload)) == DoHold(st, num, id, topic, payload)
  {
    hide DoHold;
  }

  lemma InboundPlanned(st: State, k: ConnRef, s: SessionRef, topic: Bytes, payload: Bytes, flags: P.PublishFlags, id: PacketId)
    requires Serves(st, k, s) && ValidTopicName(topic) && !TH.Duplicate(st, s, flags, id)
    ensures Plan(st, OnPublish(k, topic, payload, flags, id))
         == HeadOf(k, s, topic, payload, flags.qos, id) + PlanPublish(st.topics, topic, payload, flags.qos, flags.retain, st.clock)
  {
    hide PlanPublish, ValidTopicName;
  }

  lemma ReceivingKeeps(st: State, k: ConnRef, s: SessionRef, topic: Bytes, payload: Bytes, qos: byte, id: PacketId)
    ensures var st' := Receiving(st, k, s, topic, payload, qos, id);
            SameWorld(st, st') && st'.calls == st.calls && st'.clock == st.clock
  {
  }

  lemma {:induction false} WritesInSameWorld(st: State, st': State, subs: seq<Subscription>, topic: Bytes, payload: Bytes, qos: byte)
    requires SameWorld(st, st') && st'.calls == st.calls
    ensures Writes(st', subs, topic, payload, qos) == Writes(st, subs, topic, payload, qos)
    decreases |subs|
  {
    hide FateOf;
    if subs != [] {
      WritesInSameWorld(st, st', subs[..|subs| - 1], topic, payload, qos);
      SameFate(st, st', subs[|subs| - 1], qos);
    }
  }

  /** Any other PUBLISH: the receipt for its QoS, under its identifier, is written first, and then one copy of it
      to each entry that can be reached, in their order. */
  lemma PublishAnswered(st: State, k: ConnRef, s: SessionRef, topic: Bytes, payload: Bytes, flags: P.PublishFlags, id: PacketId)
    requires Serves(st, k, s) && ValidTopicName(topic) && !TH.Duplicate(st, s, flags, id)
    ensures var log := Step(st, OnPublish(k, topic, payload, flags, id)).log;
            var first := st.log + Receipt(k, flags.qos, id) + [Forwarded(k, id, flags.qos, topic, payload)];
            && first <= log
            && Wrote(log, |first|, Writes(st, Recipients(T.Match(st.topics, Split(topic))), topic, payload, flags.qos))
  {
    hide PlanPublish, Exec, T.Match, Recipients, Writes, Wrote, Split, HeadOf, Receipt, ValidTopicName, SameWorld, TH.Duplicate, I.Apply;
    var rest := PlanPublish(st.topics, topic, payload, flags.qos, flags.retain, st.clock);
    var mid := Receiving(st, k, s, topic, payload, flags.qos, id);
    InboundPlanned(st, k, s, topic, payload, flags, id);
    B.ExecJoin(st, HeadOf(k, s, topic, payload, flags.qos, id), rest);
    HeadReceives(st, k, s, topic, payload, flags.qos, id);
    ReceivingKeeps(st, k, s, topic, payload, flags.qos, id);
    SameTopics(st, mid);
    RE.PublishWrites(mid, topic, payload, flags.qos, flags.retain);
    WritesInSameWorld(st, mid, Recipients(T.Match(st.topics, Split(topic))), topic, payload, flags.qos);
    H.ExecEvolves(mid, rest);
  }

  lemma SameTopics(st: State, st': State)
    requires SameWorld(st, st')
    ensures st'.topics == st.topics
  {
  }

  /** A message of QoS 2 waits with its topic and payload, marked as received, in its session and nowhere else. */
  lemma HeldForRelease(st: State, k: ConnRef, s: SessionRef, topic: Bytes, payload: Bytes, id: PacketId)
    requires s.num < |st.sessions|
    ensures var st' := Receiving(st, k, s, topic, payload, 2, id);
            && st'.sessions == st.sessions[s.num := st.sessions[s.num].(messages := st.sessions[s.num].messages[id := |st.msgs|])]
            && st'.msgs == st.msgs + [ClientMessage(None, topic, payload, 2, 0, PubrecReceived, Inbound)]
            && st' == st.(sessions := st'.sessions, msgs := st'.msgs, log := st'.log)
  {
  }

  // ---------- UNSUBSCRIBE ----------

  lemma {:induction false} OnlyTopics(st: State, s: SessionRef, names: seq<Bytes>)
    ensures Exec(st, TH.Unsubscribes(s, names)) == st.(topics := Exec(st, TH.Unsubscribes(s, names)).topics)
    decreases |names|
  {
    hide I.Apply;
    if names == [] {
      B.ExecNone(st);
    } else {
      var n := |names| - 1;
      OnlyTopics(st, s, names[..n]);
      B.ExecOne(st, TH.Unsubscribes(s, names[..n]), Index(I.Unsubscribe(s, names[n])));
      assert TH.Unsubscribes(s, names) == TH.Unsubscribes(s, names[..n]) + [Index(I.Unsubscribe(s, names[n]))];
    }
  }

  /** UNSUBSCRIBE changes the index and is answered with one UNSUBACK under its identifier. */
  lemma Unsubscribed(st: State, k: ConnRef, s: SessionRef, id: PacketId, names: seq<Bytes>)
    requires Serves(st, k, s)
    ensures var st' := Step(st, OnUnsubscribe(k, id, names));
            st' == st.(topics := st'.topics, log := st.log + [Sent(k, UnsubAck(id), None)], clock := st.clock + 1)
  {
    OnlyTopics(st, s, names);
    assert Plan(st, OnUnsubscribe(k, id, names)) == TH.Unsubscribes(s, names) + [Send(k, UnsubAck(id))];
    B.ExecOne(st, TH.Unsubscribes(s, names), Send(k, UnsubAck(id)));
    hide Plan, Exec;
  }
}

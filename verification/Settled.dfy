/** A message that a client has acknowledged, by client and packet identifier: it is published to the client
    again neither from the session store nor by a retry loop, through every run and all reconnects, as long
    as no new message takes the identifier and no older session object of the client that is still in use
    holds a copy of it. */
module Settled {
  import opened Base
  import opened Filters
  import opened Sessions
  import opened Delivery
  import opened BrokerInvariant
  import opened FanOut
  import opened Wiring
  import H = Handshake
  import I = IndexSpec
  import IO = InboundOnce
  import O = Offline
  import P = Packets
  import S = Sequencer
  import T = TopicTree

  // ---------- where an unacknowledged copy can be ----------

  /** In a session object. */
  predicate Unacked(st: State, n: nat, p: PacketId) {
    && n < |st.sessions| && p in st.sessions[n].messages && st.sessions[n].messages[p] < |st.msgs|
    && st.msgs[st.sessions[n].messages[p]].status.Unacknowledged?
  }

  /** In the session store. */
  predicate Outstanding(st: State, c: ClientId, p: PacketId) {
    c in st.disk && p in st.disk[c] && st.disk[c][p].status.Unacknowledged?
  }

  predicate LiveConnOf(st: State, k: Option<ConnRef>, c: ClientId) {
    Connected(st, k) && st.conns[k.value].id == c
  }

  /** On its way to the client in a retry loop. */
  predicate Retrying(st: State, l: nat, c: ClientId, p: PacketId)
    requires l < |st.retries|
  {
    var loop := st.retries[l];
    && loop.id == p && !loop.phase.Stopped? && loop.msg < |st.msgs|
    && st.msgs[loop.msg].status.Unacknowledged? && LiveConnOf(st, st.msgs[loop.msg].client, c)
  }

  /** Saving this session object does not bring an unacknowledged copy into the session store. */
  predicate Clear(st: State, n: nat, c: ClientId, p: PacketId) {
    n < |st.sessions| && st.sessions[n].ref.id == c && !st.sessions[n].ref.clean ==> !Unacked(st, n, p)
  }

  predicate ConnsClear(st: State, c: ClientId, p: PacketId) {
    forall k :: 0 <= k < |st.conns| && st.conns[k].connected && st.conns[k].session.Some? ==>
      Clear(st, st.conns[k].session.value.num, c, p)
  }

  ghost predicate EntriesClear(st: State, c: ClientId, p: PacketId) {
    forall q: Path, i :: 0 <= i < |T.SubsAt(st.topics, q)| ==> Clear(st, T.SubsAt(st.topics, q)[i].session.num, c, p)
  }

  predicate LoopsClear(st: State, c: ClientId, p: PacketId) {
    forall l :: 0 <= l < |st.retries| ==> !Retrying(st, l, c, p)
  }

  /** Acknowledged, and in no place that is still in use. */
  ghost predicate Settled(st: State, c: ClientId, p: PacketId) {
    !Outstanding(st, c, p) && ConnsClear(st, c, p) && EntriesClear(st, c, p) && LoopsClear(st, c, p)
  }

  // ---------- actions ----------

  /** A new message for the client draws the identifier. */
  predicate Takes(st: State, a: Action, c: ClientId, p: PacketId) {
    match a
    case Deliver(sub, _, _, qos) =>
      && CopyQos(sub, qos) > 0 && S.IdOfCall(st.calls) == p
      && (match FateOf(st, sub, qos)
          case Emitted(k) => LiveConnOf(st, Some(k), c)
          case Kept => sub.session.id == c
          case Dropped => false)
    case DeliverRetained(sub, msg) =>
      Min(sub.qos, msg.qos) > 0 && S.IdOfCall(st.calls) == p && LiveConnOf(st, SessionClient(st, sub.session.num), c)
    case _ => false
  }

  predicate PublishTo(st: State, e: LogEntry, c: ClientId, p: PacketId) {
    && e.Sent? && e.packet.Publish? && e.packet.qos > 0 && e.packet.id == p
    && e.conn < |st.conns| && st.conns[e.conn].id == c
  }

  /** The action writes no PUBLISH under the identifier to a connection of the client. */
  predicate Silent(st: State, a: Action, c: ClientId, p: PacketId) {
    forall j :: |st.log| <= j < |Do(st, a).log| ==> !PublishTo(Do(st, a), Do(st, a).log[j], c, p)
  }

  predicate Keeps(st: State, a: Action, c: ClientId, p: PacketId) {
    match a
    case Send(_, packet) => !packet.Publish?
    case Deliver(sub, _, _, _) => RefOk(st, sub.session) && Clear(st, sub.session.num, c, p)
    case Index(op) => op.Subscribe? ==> Clear(st, op.s.num, c, p)
    case AckSession(num, _, _, _, _) => Clear(st, num, c, p)
    case Save(num) => Clear(st, num, c, p) && (num < |st.sessions| ==> !st.sessions[num].ref.clean)
    case Attach(k, id, _, _) => id == c && k < |st.conns| ==> st.conns[k].session.None?
    case Replay(k, num, _) =>
      && Clear(st, num, c, p)
      && (num < |st.sessions| ==> !st.sessions[num].ref.clean && k < |st.conns| && st.conns[k].id == st.sessions[num].ref.id)
    case _ => true
  }

  lemma NewCopyIsKept(st: State, a: Action, n: nat, p: PacketId, m: MsgRef)
    requires SessionsOk(st) && a.Deliver? && RefOk(st, a.sub.session) && HoldsAt(Do(st, a), n, p, m) && |st.msgs| <= m
    ensures n == a.sub.session.num && CopyQos(a.sub, a.qos) > 0 && FateOf(st, a.sub, a.qos).Kept? && p == S.IdOfCall(st.calls)
  {
    hide S.IdOfCall, Snapshot;
    if n < |st.sessions| {
      assert SessionOk(st, n);
    }
  }

  lemma LoadedStatus(st: State, num: nat, p: PacketId)
    requires num < |st.sessions| && st.sessions[num].ref.id in st.disk && Unacked(DoLoad(st, num), num, p)
    ensures Outstanding(st, st.sessions[num].ref.id, p)
  {
    var stored := st.disk[st.sessions[num].ref.id];
    var keys := Ascending(stored.Keys, 0);
    var h := LoadedFrom(|st.msgs|, keys, p);
    LoadedMsgsAt(stored, keys, h);
    hide Ascending, LoadedMap, LoadedMsgs, FromStored;
    FromStoredStatus(stored[p]);
  }

  lemma LoadedMsgsAt(stored: map<PacketId, Stored>, keys: seq<PacketId>, h: nat)
    requires h < |keys| && forall id :: id in keys ==> id in stored
    ensures keys[h] in stored && |LoadedMsgs(stored, keys)| == |keys| && LoadedMsgs(stored, keys)[h] == FromStored(stored[keys[h]])
  {
    assert keys[h] in keys;
    hide FromStored;
  }

  lemma FromStoredStatus(m: Stored)
    ensures FromStored(m).status == m.status
  {
  }

  lemma HeldInbound(st: State, a: Action, n: nat, p: PacketId)
    requires SessionsOk(st) && a.Hold? && Unacked(Do(st, a), n, p)
    ensures Unacked(st, n, p)
  {
    if n < |st.sessions| {
      assert SessionOk(st, n);
    }
  }

  lemma StatusBefore(st: State, a: Action, n: nat, p: PacketId, m: MsgRef)
    requires SessionsOk(st) && HoldsAt(st, n, p, m) && HoldsAt(Do(st, a), n, p, m) && Unacked(Do(st, a), n, p)
    ensures Unacked(st, n, p)
  {
    H.RefsGrow(st, a);
    HeldBelow(st, n, p, m);
    hide Do;
    assert H.Acked(st, m) ==> H.Acked(Do(st, a), m);
  }

  /** A session object with an unacknowledged copy had it before, unless a new message took the identifier. */
  lemma ClearKept(st: State, a: Action, n: nat, c: ClientId, p: PacketId)
    requires SessionsOk(st) && !Outstanding(st, c, p) && Clear(st, n, c, p) && Keeps(st, a, c, p) && !Takes(st, a, c, p)
    ensures Clear(Do(st, a), n, c, p)
  {
    var st' := Do(st, a);
    SessionsPersist(st, a);
    if n < |st'.sessions| && st'.sessions[n].ref.id == c && !st'.sessions[n].ref.clean && Unacked(st', n, p) {
      var m := st'.sessions[n].messages[p];
      HeldAfter(st, a, n, p, m);
      if HoldsAt(st, n, p, m) {
        StatusBefore(st, a, n, p, m);
      } else if a.Deliver? {
        NewCopyIsKept(st, a, n, p, m);
      } else if a.Load? {
        if n < |st.sessions| && st.sessions[n].ref.id in st.disk {
          LoadedStatus(st, n, p);
        } else {
          LoadedNothing(st, n);
        }
      } else {
        HeldInbound(st, a, n, p);
      }
      hide Do;
    }
  }

  // ---------- the session store ----------

  lemma SavedOutstanding(st: State, num: nat, c: ClientId, p: PacketId)
    ensures Outstanding(Saved(st, num), c, p) <==>
            if num < |st.sessions| && st.sessions[num].ref.id == c then Unacked(st, num, p) else Outstanding(st, c, p)
  {
  }

  /** The session object that an action saves. */
  function SavedBy(st: State, a: Action): Option<nat> {
    match a
    case Deliver(sub, _, _, qos) => if FateOf(st, sub, qos).Kept? then Some(sub.session.num) else None
    case AckSession(num, _, _, _, save) => if save && num < |st.sessions| && !st.sessions[num].ref.clean then Some(num) else None
    case Save(num) => if num < |st.sessions| then Some(num) else None
    case _ => None
  }

  lemma NotSaved(st: State, a: Action)
    requires SavedBy(st, a).None? && !a.Erase?
    ensures Do(st, a).disk == st.disk
  {
    hide S.IdOfCall, DoIndex, RetryPacket, WithStatus, Snapshot, LoadedMap, LoadedMsgs, Ascending;
    if a.Index? {
      H.IndexKeepsRest(st, a.op);
    }
  }

  lemma DeliverSaves(st: State, a: Action, num: nat, c: ClientId, p: PacketId)
    requires a.Deliver? && SavedBy(st, a) == Some(num)
    ensures num < |Do(st, a).sessions| && Do(st, a).sessions[num].ref == st.sessions[num].ref
    ensures Outstanding(Do(st, a), c, p) <==> if st.sessions[num].ref.id == c then Unacked(Do(st, a), num, p) else Outstanding(st, c, p)
  {
    hide S.IdOfCall;
  }

  lemma AckSaves(st: State, a: Action, num: nat, c: ClientId, p: PacketId)
    requires a.AckSession? && SavedBy(st, a) == Some(num)
    ensures num < |Do(st, a).sessions| && Do(st, a).sessions[num].ref == st.sessions[num].ref
    ensures Outstanding(Do(st, a), c, p) <==> if st.sessions[num].ref.id == c then Unacked(Do(st, a), num, p) else Outstanding(st, c, p)
  {
    var st1 := AckedSession(st, num, a.id, a.status, a.delete);
    SavedOutstanding(st1, num, c, p);
    assert st1.disk == st.disk;
    hide WithStatus;
  }

  lemma SavingSaves(st: State, a: Action, num: nat, c: ClientId, p: PacketId)
    requires a.Save? && SavedBy(st, a) == Some(num)
    ensures num < |Do(st, a).sessions| && Do(st, a).sessions[num].ref == st.sessions[num].ref
    ensures Outstanding(Do(st, a), c, p) <==> if st.sessions[num].ref.id == c then Unacked(Do(st, a), num, p) else Outstanding(st, c, p)
  {
    SavedOutstanding(st, num, c, p);
  }

  /** What is in the session store after an action: of the client whose session it saves, what that session
      object holds. */
  lemma OutstandingAfter(st: State, a: Action, c: ClientId, p: PacketId)
    requires !a.Erase?
    ensures Outstanding(Do(st, a), c, p) <==>
            match SavedBy(st, a)
            case Some(num) =>
              num < |Do(st, a).sessions| && if Do(st, a).sessions[num].ref.id == c then Unacked(Do(st, a), num, p) else Outstanding(st, c, p)
            case None => Outstanding(st, c, p)
  {
    hide Do, Outstanding, Unacked, SavedBy;
    if SavedBy(st, a).None? {
      NotSaved(st, a);
      SameDisk(st, Do(st, a), c, p);
    } else {
      SavedKinds(st, a);
      var num := SavedBy(st, a).value;
      if a.Deliver? {
        DeliverSaves(st, a, num, c, p);
      } else if a.AckSession? {
        AckSaves(st, a, num, c, p);
      } else {
        SavingSaves(st, a, num, c, p);
      }
    }
  }

  lemma SavedKinds(st: State, a: Action)
    requires SavedBy(st, a).Some?
    ensures a.Deliver? || a.AckSession? || a.Save?
  {
  }

  lemma SameDisk(st: State, st': State, c: ClientId, p: PacketId)
    requires st'.disk == st.disk
    ensures Outstanding(st', c, p) <==> Outstanding(st, c, p)
  {
  }

  lemma StillAcknowledged(st: State, a: Action, c: ClientId, p: PacketId)
    requires SessionsOk(st) && !Outstanding(st, c, p) && Keeps(st, a, c, p) && !Takes(st, a, c, p)
    ensures !Outstanding(Do(st, a), c, p)
  {
    if !a.Erase? {
      OutstandingAfter(st, a, c, p);
      SessionsPersist(st, a);
      hide Do, Unacked, Outstanding, FateOf, Takes;
      if SavedBy(st, a).Some? {
        SavedIsClear(st, a, c, p);
        ClearKept(st, a, SavedBy(st, a).value, c, p);
      }
    }
  }

  lemma SavedIsClear(st: State, a: Action, c: ClientId, p: PacketId)
    requires Keeps(st, a, c, p) && SavedBy(st, a).Some?
    ensures var num := SavedBy(st, a).value;
            num < |st.sessions| && !st.sessions[num].ref.clean && Clear(st, num, c, p)
  {
  }

  // ---------- connections, entries and retry loops ----------

  lemma ConnsClearKept(st: State, a: Action, c: ClientId, p: PacketId)
    requires Wired(st) && Settled(st, c, p) && Keeps(st, a, c, p) && !Takes(st, a, c, p)
    ensures ConnsClear(Do(st, a), c, p)
  {
    var st' := Do(st, a);
    SessionsOfWired(st);
    NewConn(st, a);
    ConnectedBefore(st, a);
    if a.Attach? {
      AttachedIsClear(st, a, c, p);
    }
    hide Do, Wired, Settled, Keeps, Takes, Outstanding, Clear;
    SettledParts(st, c, p);
    forall k | 0 <= k < |st'.conns| && st'.conns[k].connected && st'.conns[k].session.Some?
      ensures Clear(st', st'.conns[k].session.value.num, c, p)
    {
      assert ConnOk(st, k);
      ConnKept(st, a, k);
      if st'.conns[k].session == st.conns[k].session {
        ClearKept(st, a, st.conns[k].session.value.num, c, p);
      }
    }
  }

  lemma ConnectedBefore(st: State, a: Action)
    ensures forall k :: 0 <= k < |st.conns| ==> k < |Do(st, a).conns| && (Do(st, a).conns[k].connected ==> st.conns[k].connected)
    ensures forall k :: 0 <= k < |st.conns| && !a.Attach? ==> Do(st, a).conns[k].id == st.conns[k].id
    ensures forall k :: 0 <= k < |st.conns| && a.Attach? && a.conn != k ==> Do(st, a).conns[k].id == st.conns[k].id
    ensures a.Attach? && a.conn < |st.conns| ==> Do(st, a).conns[a.conn].id == a.client
  {
    ConnsOfDo(st, a);
    if !(a.Open? || a.Attach? || a.Close?) {
      hide Do;
    }
  }

  lemma AttachedIsClear(st: State, a: Action, c: ClientId, p: PacketId)
    requires a.Attach?
    ensures Clear(Do(st, a), |st.sessions|, c, p)
  {
  }

  lemma SessionsOfWired(st: State)
    requires Wired(st)
    ensures Inv(st) && SessionsOk(st) && I.RootOk(st.topics) && EntriesOk(st) && ConnsOk(st)
  {
  }

  lemma SettledParts(st: State, c: ClientId, p: PacketId)
    requires Settled(st, c, p)
    ensures !Outstanding(st, c, p) && ConnsClear(st, c, p) && EntriesClear(st, c, p) && LoopsClear(st, c, p)
  {
  }

  lemma EntriesClearKept(st: State, a: Action, c: ClientId, p: PacketId)
    requires Wired(st) && Settled(st, c, p) && Keeps(st, a, c, p) && !Takes(st, a, c, p)
    ensures EntriesClear(Do(st, a), c, p)
  {
    var st' := Do(st, a);
    SessionsOfWired(st);
    SettledParts(st, c, p);
    TopicsOfDo(st, a);
    hide Do, T.SubsAt, I.Apply, I.RootOk, Wired, Settled, Takes, Outstanding, Clear;
    forall q: Path, i | 0 <= i < |T.SubsAt(st'.topics, q)| ensures Clear(st', T.SubsAt(st'.topics, q)[i].session.num, c, p) {
      var x := T.SubsAt(st'.topics, q)[i];
      if a.Index? {
        EntryOrigin(st.topics, a.op, q, x);
      }
      if x in T.SubsAt(st.topics, q) {
        var j :| 0 <= j < |T.SubsAt(st.topics, q)| && T.SubsAt(st.topics, q)[j] == x;
        assert Clear(st, x.session.num, c, p);
      }
      ClearKept(st, a, x.session.num, c, p);
    }
  }

  /** A message object keeps its connection, unless it is replayed on another. */
  lemma ClientAfter(st: State, a: Action, m: MsgRef)
    requires m < |st.msgs|
    ensures m < |Do(st, a).msgs|
    ensures Do(st, a).msgs[m].client == st.msgs[m].client
         || (a.Replay? && HoldsAt(st, a.num, a.id, m) && Do(st, a).msgs[m].client == Some(a.conn))
  {
    H.RefsGrow(st, a);
    hide S.IdOfCall, DoIndex, Saved, RetryPacket, Ascending, LoadedMap, DoDeliver, DoDeliverRetained;
    match a {
      case Save(num) => SavedKeepsRest(st, num);
      case Index(op) => H.IndexKeepsRest(st, op);
      case Deliver(sub, topic, payload, qos) => H.DeliverMessages(st, sub, topic, payload, qos);
      case DeliverRetained(sub, msg) => H.MessagesAppended(st, sub, msg);
      case AckSession(num, id, status, delete, save) => SavedKeepsRest(AckedSession(st, num, id, status, delete), num);
      case _ =>
    }
  }

  /** A connection is that of the client only if it was so before. */
  lemma LiveConnBefore(st: State, a: Action, k: Option<ConnRef>, c: ClientId, p: PacketId)
    requires Joined(st, k) && Keeps(st, a, c, p) && LiveConnOf(Do(st, a), k, c)
    ensures LiveConnOf(st, k, c)
  {
    ConnectedBefore(st, a);
    hide Do;
  }

  /** What replaying puts in a retry loop is acknowledged, or not for this client. */
  lemma ReplayedIsClear(st: State, a: Action, m: MsgRef, c: ClientId, p: PacketId)
    requires a.Replay? && Keeps(st, a, c, p) && a.id == p && HoldsAt(st, a.num, p, m) && m < |st.msgs|
    requires st.msgs[m].status.Unacknowledged?
    ensures a.conn < |st.conns| && st.conns[a.conn].id != c
  {
  }

  lemma OldLoop(st: State, a: Action, l: nat, c: ClientId, p: PacketId)
    requires Wired(st) && LoopsClear(st, c, p) && Keeps(st, a, c, p) && l < |st.retries| && l < |Do(st, a).retries|
    ensures !Retrying(Do(st, a), l, c, p)
  {
    var st' := Do(st, a);
    H.LoopsGrow(st, a);
    H.RefsGrow(st, a);
    var m := st.retries[l].msg;
    ClientAfter(st, a, m);
    ConnectedBefore(st, a);
    assert !Retrying(st, l, c, p);
    hide Do, Inv, Keeps;
    if Retrying(st', l, c, p) {
      assert H.Acked(st, m) ==> H.Acked(st', m);
      if st'.msgs[m].client == st.msgs[m].client {
        LiveConnBefore(st, a, st.msgs[m].client, c, p);
      } else {
        ReplayedIsClear(st, a, m, c, p);
      }
    }
  }

  lemma FreshLoopOfDeliver(st: State, a: Action, l: nat, c: ClientId, p: PacketId)
    requires |st.retries| <= l < |Do(st, a).retries| && Retrying(Do(st, a), l, c, p) && (a.Deliver? || a.DeliverRetained?)
    ensures Takes(st, a, c, p)
  {
    hide S.IdOfCall, Snapshot;
    var st' := Do(st, a);
    assert st'.retries[l].msg == |st.msgs| && st'.msgs[|st.msgs|].client == SessionClient(st, a.sub.session.num);
    assert st'.conns == st.conns;
  }

  lemma FreshLoop(st: State, a: Action, l: nat, c: ClientId, p: PacketId)
    requires |st.retries| <= l < |Do(st, a).retries| && Retrying(Do(st, a), l, c, p) && !a.Replay?
    ensures Takes(st, a, c, p)
  {
    if a.Deliver? || a.DeliverRetained? {
      FreshLoopOfDeliver(st, a, l, c, p);
    } else {
      NoNewLoop(st, a);
    }
  }

  lemma NoNewLoop(st: State, a: Action)
    requires !a.Deliver? && !a.DeliverRetained? && !a.Replay?
    ensures |Do(st, a).retries| == |st.retries|
  {
    hide S.IdOfCall, DoIndex, Saved, Snapshot, RetryPacket, WithStatus, LoadedMap, LoadedMsgs, Ascending, DoRetry;
    match a {
      case Save(num) => SavedKeepsRest(st, num);
      case Index(op) => H.IndexKeepsRest(st, op);
      case AckSession(num, id, status, delete, save) => SavedKeepsRest(AckedSession(st, num, id, status, delete), num);
      case Retry(n) => RetriesAsMany(st, n);
      case _ =>
    }
  }

  lemma ReplayedLoop(st: State, a: Action, l: nat, c: ClientId, p: PacketId)
    requires Wired(st) && Keeps(st, a, c, p) && a.Replay? && |st.retries| <= l < |Do(st, a).retries|
    ensures !Retrying(Do(st, a), l, c, p)
  {
    SessionsOfWired(st);
    hide Wired, Inv;
    if a.num < |st.sessions| {
      assert SessionOk(st, a.num);
    }
  }

  lemma LoopsClearKept(st: State, a: Action, c: ClientId, p: PacketId)
    requires Wired(st) && Settled(st, c, p) && Keeps(st, a, c, p) && !Takes(st, a, c, p)
    ensures LoopsClear(Do(st, a), c, p)
  {
    SettledParts(st, c, p);
    hide Do, Wired, Settled, Keeps, Takes, Retrying;
    forall l | 0 <= l < |Do(st, a).retries| ensures !Retrying(Do(st, a), l, c, p) {
      if l < |st.retries| {
        OldLoop(st, a, l, c, p);
      } else if a.Replay? {
        ReplayedLoop(st, a, l, c, p);
      } else if Retrying(Do(st, a), l, c, p) {
        FreshLoop(st, a, l, c, p);
      }
    }
  }

  lemma StillSettled(st: State, a: Action, c: ClientId, p: PacketId)
    requires Wired(st) && Settled(st, c, p) && Keeps(st, a, c, p) && !Takes(st, a, c, p)
    ensures Settled(Do(st, a), c, p)
  {
    SettledParts(st, c, p);
    SessionsOfWired(st);
    ConnsClearKept(st, a, c, p);
    EntriesClearKept(st, a, c, p);
    LoopsClearKept(st, a, c, p);
    hide Do, Keeps, Takes, Outstanding, ConnsClear, EntriesClear, LoopsClear;
    StillAcknowledged(st, a, c, p);
  }

  // ---------- what is written ----------

  lemma RetrySilent(st: State, n: nat, c: ClientId, p: PacketId)
    requires LoopsClear(st, c, p)
    ensures Silent(st, Action.Retry(n), c, p)
  {
    if n < |st.retries| {
      assert !Retrying(st, n, c, p);
    }
  }

  lemma DeliverSilent(st: State, a: Action, c: ClientId, p: PacketId)
    requires (a.Deliver? || a.DeliverRetained?) && !Takes(st, a, c, p)
    ensures Silent(st, a, c, p)
  {
    hide S.IdOfCall, Snapshot;
  }

  lemma ReplaySilent(st: State, a: Action, c: ClientId, p: PacketId)
    requires a.Replay? && SessionsOk(st) && Keeps(st, a, c, p)
    ensures Silent(st, a, c, p)
  {
    if a.num < |st.sessions| {
      assert SessionOk(st, a.num);
    }
  }

  lemma NothingPublished(st: State, a: Action, c: ClientId, p: PacketId)
    requires Keeps(st, a, c, p) && !a.Deliver? && !a.DeliverRetained? && !a.Replay? && !a.Retry?
    ensures Silent(st, a, c, p)
  {
    hide DoIndex, Saved, S.IdOfCall, WithStatus, LoadedMap, LoadedMsgs, Ascending;
    match a {
      case Index(op) => H.IndexKeepsRest(st, op);
      case Save(num) => SavedKeepsRest(st, num);
      case AckSession(num, id, status, delete, save) => SavedKeepsRest(AckedSession(st, num, id, status, delete), num);
      case _ =>
    }
  }

  lemma ActionSilent(st: State, a: Action, c: ClientId, p: PacketId)
    requires Wired(st) && Settled(st, c, p) && Keeps(st, a, c, p) && !Takes(st, a, c, p)
    ensures Silent(st, a, c, p)
  {
    SettledParts(st, c, p);
    SessionsOfWired(st);
    hide Wired, Settled, Takes, Keeps, Silent, LoopsClear;
    match a {
      case Deliver(_, _, _, _) => DeliverSilent(st, a, c, p);
      case DeliverRetained(_, _) => DeliverSilent(st, a, c, p);
      case Replay(_, _, _) => ReplaySilent(st, a, c, p);
      case Retry(n) => RetrySilent(st, n, c, p);
      case _ => NothingPublished(st, a, c, p);
    }
  }

  // ---------- the actions of one event ----------

  lemma KeepsPersists(st: State, a: Action, b: Action, c: ClientId, p: PacketId)
    requires SessionsOk(st) && !Outstanding(st, c, p) && Keeps(st, a, c, p) && !Takes(st, a, c, p)
    requires !a.Attach? && !b.Attach? && Keeps(st, b, c, p)
    ensures Keeps(Do(st, a), b, c, p)
  {
    SessionsPersist(st, a);
    AsManySessions(st, a);
    ConnectedBefore(st, a);
    hide Do, Outstanding, Takes, Clear;
    match b {
      case Deliver(sub, _, _, _) =>
        ClearKept(st, a, sub.session.num, c, p);
        RefPersists(st, a, sub.session);
      case Index(op) =>
        if op.Subscribe? {
          ClearKept(st, a, op.s.num, c, p);
        }
      case AckSession(num, _, _, _, _) => ClearKept(st, a, num, c, p);
      case Save(num) => ClearKept(st, a, num, c, p);
      case Replay(_, num, _) => ClearKept(st, a, num, c, p);
      case _ =>
    }
  }

  predicate AllKeep(st: State, actions: seq<Action>, c: ClientId, p: PacketId) {
    forall i :: 0 <= i < |actions| ==> Keeps(st, actions[i], c, p) && !actions[i].Attach?
  }

  predicate AllUntaken(st: State, actions: seq<Action>, c: ClientId, p: PacketId) {
    forall i :: 0 <= i < |actions| ==> !Takes(Exec(st, actions[..i]), actions[i], c, p)
  }

  /** Nothing under the identifier is written to the client, and its message stays acknowledged in the
      session store. */
  predicate Respects(st: State, a: Action, c: ClientId, p: PacketId) {
    Silent(st, a, c, p) && !Outstanding(Do(st, a), c, p)
  }

  predicate AllRespect(st: State, actions: seq<Action>, c: ClientId, p: PacketId) {
    forall i :: 0 <= i < |actions| ==> Respects(Exec(st, actions[..i]), actions[i], c, p)
  }

  lemma OneRespects(st: State, a: Action, c: ClientId, p: PacketId)
    requires Wired(st) && Settled(st, c, p) && Keeps(st, a, c, p) && !Takes(st, a, c, p)
    ensures Settled(Do(st, a), c, p) && Respects(st, a, c, p)
  {
    hide Do, Wired, Keeps, Takes, Silent, Settled, Outstanding;
    StillSettled(st, a, c, p);
    ActionSilent(st, a, c, p);
    SettledParts(Do(st, a), c, p);
  }

  lemma {:induction false} ExecSettled(st: State, actions: seq<Action>, c: ClientId, p: PacketId)
    requires Wired(st) && Settled(st, c, p) && AllKeep(st, actions, c, p) && AllWireOk(st, actions) && AllUntaken(st, actions, c, p)
    ensures Settled(Exec(st, actions), c, p) && AllRespect(st, actions, c, p)
    ensures forall b :: Keeps(st, b, c, p) && !b.Attach? ==> Keeps(Exec(st, actions), b, c, p)
    decreases |actions|
  {
    hide Do, Wired, Settled, Keeps, Takes, WireOk, Respects;
    if actions != [] {
      var n := |actions| - 1;
      var mid := Exec(st, actions[..n]);
      forall i | 0 <= i < n ensures !Takes(Exec(st, actions[..n][..i]), actions[..n][i], c, p) {
        assert actions[..n][..i] == actions[..i];
      }
      ExecSettled(st, actions[..n], c, p);
      ExecKeepsWired(st, actions[..n]);
      assert Keeps(st, actions[n], c, p);
      OneRespects(mid, actions[n], c, p);
      forall i | 0 <= i < |actions| ensures Respects(Exec(st, actions[..i]), actions[i], c, p) {
        if i < n {
          assert actions[..n][..i] == actions[..i];
          assert Respects(Exec(st, actions[..n][..i]), actions[..n][i], c, p);
        }
      }
      SessionsOfWired(mid);
      SettledParts(mid, c, p);
      forall b | Keeps(mid, b, c, p) && !b.Attach? ensures Keeps(Do(mid, actions[n]), b, c, p) {
        KeepsPersists(mid, actions[n], b, c, p);
      }
    }
  }

  ghost predicate RootClear(st: State, root: T.Tree, c: ClientId, p: PacketId) {
    forall q: Path, i :: 0 <= i < |T.SubsAt(root, q)| ==>
      RefOk(st, T.SubsAt(root, q)[i].session) && Clear(st, T.SubsAt(root, q)[i].session.num, c, p)
  }

  lemma PublishKeeps(st: State, root: T.Tree, topic: Bytes, payload: Bytes, qos: byte, retain: bool, clock: int, c: ClientId, p: PacketId)
    requires I.RootOk(root) && RootClear(st, root, c, p)
    ensures AllKeep(st, PlanPublish(root, topic, payload, qos, retain, clock), c, p)
  {
    if ValidTopicName(topic) {
      hide Clear;
      var subs := Recipients(T.Match(root, Split(topic)));
      forall i | 0 <= i < |subs| ensures Keeps(st, Deliver(subs[i], topic, payload, qos), c, p) {
        var q, h := RecipientIsEntry(root, Split(topic), i);
        assert T.SubsAt(root, q)[h] == subs[i];
      }
    }
  }

  lemma RootClearNow(st: State, c: ClientId, p: PacketId)
    requires EntriesOk(st) && EntriesClear(st, c, p)
    ensures RootClear(st, st.topics, c, p)
  {
  }

  lemma RootClearAfterLeaving(st: State, op: I.Op, c: ClientId, p: PacketId)
    requires I.RootOk(st.topics) && EntriesOk(st) && EntriesClear(st, c, p) && op.UnsubscribeAll?
    ensures RootClear(st, I.Apply(st.topics, op), c, p) && I.RootOk(I.Apply(st.topics, op))
  {
    I.ApplyKeepsRootOk(st.topics, op);
    hide I.Apply, T.SubsAt, I.RootOk, RefOk, Clear;
    var root := I.Apply(st.topics, op);
    forall q: Path, i | 0 <= i < |T.SubsAt(root, q)|
      ensures RefOk(st, T.SubsAt(root, q)[i].session) && Clear(st, T.SubsAt(root, q)[i].session.num, c, p)
    {
      var x := T.SubsAt(root, q)[i];
      EntryOrigin(st.topics, op, q, x);
      var j :| 0 <= j < |T.SubsAt(st.topics, q)| && T.SubsAt(st.topics, q)[j] == x;
    }
  }

  lemma LeaveKeeps(st: State, k: ConnRef, graceful: bool, c: ClientId, p: PacketId)
    requires I.RootOk(st.topics) && EntriesOk(st) && EntriesClear(st, c, p) && k < |st.conns|
    ensures AllKeep(st, PlanLeave(st, k, graceful), c, p)
  {
    hide PlanPublish, EntriesOk, EntriesClear, RootClear, I.RootOk;
    var conn := st.conns[k];
    if conn.session.Some? {
      var op := I.UnsubscribeAll(conn.session.value, graceful);
      RootClearAfterLeaving(st, op, c, p);
      if conn.will.Some? {
        var w := conn.will.value;
        PublishKeeps(st, I.Apply(st.topics, op), w.topic, w.payload, w.qos, w.retain, st.clock, c, p);
      }
    }
  }

  lemma {:induction false} RetainedKeeps(st: State, found: seq<T.Tree>, sub: Subscription, c: ClientId, p: PacketId)
    ensures AllKeep(st, RetainedDeliveries(found, sub), c, p)
  {
    if found != [] {
      RetainedKeeps(st, found[..|found| - 1], sub, c, p);
    }
  }

  lemma {:induction false} FiltersKeep(st: State, topics: T.Tree, s: SessionRef, filters: seq<P.FilterQos>, c: ClientId, p: PacketId)
    requires Clear(st, s.num, c, p)
    ensures AllKeep(st, PlanFilters(topics, s, filters), c, p)
    decreases |filters|
  {
    hide I.Apply, T.Reverse, SortByTime, Split, ValidFilterName, RetainedDeliveries, Clear;
    if filters != [] {
      var n := |filters| - 1;
      FiltersKeep(st, topics, s, filters[..n], c, p);
      var f := filters[n];
      RetainedKeeps(st, SortByTime(T.Reverse(I.Apply(TopicsAfter(topics, s, filters[..n]), I.Subscribe(s, f.filter, f.qos)), Split(f.filter))),
                    Subscription(s, f.qos), c, p);
    }
  }

  lemma InboundKeeps(st: State, k: ConnRef, s: SessionRef, topic: Bytes, payload: Bytes, flags: P.PublishFlags, id: PacketId, c: ClientId, p: PacketId)
    requires I.RootOk(st.topics) && EntriesOk(st) && EntriesClear(st, c, p)
    ensures AllKeep(st, PlanInbound(st, k, s, topic, payload, flags, id), c, p)
  {
    hide PlanPublish;
    RootClearNow(st, c, p);
    PublishKeeps(st, st.topics, topic, payload, flags.qos, flags.retain, st.clock, c, p);
    hide EntriesOk, EntriesClear, RootClear;
  }

  lemma PacketKeeps(st: State, s: SessionRef, e: Event, c: ClientId, p: PacketId)
    requires I.RootOk(st.topics) && EntriesOk(st) && EntriesClear(st, c, p) && Clear(st, s.num, c, p)
    requires !e.Accept? && !e.OnTick? && e.conn < |st.conns| && (e.OnConnect? ==> e.client == "")
    ensures AllKeep(st, PlanPacket(st, s, e), c, p)
  {
    hide PlanPublish, PlanFilters, PlanLeave, PlanConnect, PlanInbound, ValidTopicName, EntriesOk, EntriesClear, Clear, I.RootOk;
    LeaveKeeps(st, e.conn, true, c, p);
    LeaveKeeps(st, e.conn, false, c, p);
    match e {
      case OnPublish(k, topic, payload, flags, id) => InboundKeeps(st, k, s, topic, payload, flags, id, c, p);
      case OnSubscribe(k, id, filters) => FiltersKeep(st, st.topics, s, filters, c, p);
      case _ =>
    }
  }

  lemma PlanKeeps(st: State, e: Event, c: ClientId, p: PacketId)
    requires Wired(st) && Settled(st, c, p) && !Connects(st, e)
    ensures AllKeep(st, Plan(st, e), c, p)
  {
    hide PlanPacket, PlanConnect, Wired, Settled, EntriesOk, EntriesClear, ConnsOk, Clear, I.RootOk;
    SessionsOfWired(st);
    SettledParts(st, c, p);
    if !e.Accept? && !e.OnTick? && Connected(st, Some(e.conn)) && st.conns[e.conn].session.Some? {
      ConnectsOrNot(st, e);
      assert Clear(st, st.conns[e.conn].session.value.num, c, p);
      PacketKeeps(st, st.conns[e.conn].session.value, e, c, p);
    }
  }

  lemma ConnectsOrNot(st: State, e: Event)
    requires !e.Accept? && !e.OnTick? && !Connects(st, e) && Connected(st, Some(e.conn))
    ensures e.OnConnect? ==> e.client == ""
  {
    hide PlanConnect, PlanLeave;
  }

  /** After the session is made, the rest of a CONNECT. */
  lemma ConnectKeeps(st: State, k: ConnRef, id: ClientId, clean: bool, will: Option<Message>, c: ClientId, p: PacketId)
    requires k < |st.conns|
    ensures AllKeep(Do(st, Attach(k, id, clean, will)), PlanConnect(st, k, id, clean, will)[1..], c, p)
  {
    hide Ascending;
  }

  // ---------- events and runs ----------

  /** The client's CONNECTs come on connections that have made none (section 3.1.0 of MQTT 3.1.1), and no
      new message for the client takes the identifier. */
  predicate EventUntaken(st: State, e: Event, c: ClientId, p: PacketId) {
    && (IsConnectOf(e, c) && Connected(st, Some(e.conn)) ==> st.conns[e.conn].session.None?)
    && AllUntaken(st, Plan(st, e), c, p)
  }

  lemma UntakenAfterFirst(st: State, a: Action, rest: seq<Action>, c: ClientId, p: PacketId)
    requires AllUntaken(st, [a] + rest, c, p)
    ensures !Takes(st, a, c, p) && AllUntaken(Do(st, a), rest, c, p)
  {
    hide Do, Takes;
    var all := [a] + rest;
    assert all[..0] == [] && Exec(st, []) == st && !Takes(Exec(st, all[..0]), all[0], c, p);
    forall i | 0 <= i < |rest| ensures !Takes(Exec(Do(st, a), rest[..i]), rest[i], c, p) {
      assert all[..i + 1] == [a] + rest[..i] && all[i + 1] == rest[i];
      FirstThenRest(st, a, rest[..i]);
      assert !Takes(Exec(st, all[..i + 1]), all[i + 1], c, p);
    }
  }

  lemma RespectedWithFirst(st: State, a: Action, rest: seq<Action>, c: ClientId, p: PacketId)
    requires Respects(st, a, c, p) && AllRespect(Do(st, a), rest, c, p)
    ensures AllRespect(st, [a] + rest, c, p)
  {
    hide Do, Respects;
    var all := [a] + rest;
    forall i | 0 <= i < |all| ensures Respects(Exec(st, all[..i]), all[i], c, p) {
      if i == 0 {
        assert all[..0] == [] && Exec(st, []) == st;
      } else {
        assert all[..i] == [a] + rest[..i - 1] && all[i] == rest[i - 1];
        FirstThenRest(st, a, rest[..i - 1]);
        assert Respects(Exec(Do(st, a), rest[..i - 1]), rest[i - 1], c, p);
      }
    }
  }

  lemma ConnectSettled(st: State, e: Event, c: ClientId, p: PacketId)
    requires Wired(st) && Settled(st, c, p) && EventUntaken(st, e, c, p) && Connects(st, e)
    ensures Settled(Exec(st, Plan(st, e)), c, p) && AllRespect(st, Plan(st, e), c, p)
  {
    var first := Attach(e.conn, e.client, e.clean, e.will);
    var rest := PlanConnect(st, e.conn, e.client, e.clean, e.will)[1..];
    var mid := Do(st, first);
    SessionsOfWired(st);
    PlanOk(st, e);
    hide Do, Plan, PlanConnect, Exec, Wired, Settled, Takes, Silent, Respects, Outstanding, AllUntaken, AllRespect, AllKeep, Inv;
    ConnectAttaches(st, e.conn, e.client, e.clean, e.will);
    UntakenAfterFirst(st, first, rest, c, p);
    assert Keeps(st, first, c, p);
    OneRespects(st, first, c, p);
    ConnectKeeps(st, e.conn, e.client, e.clean, e.will, c, p);
    DoKeepsWired(st, first);
    RestWireOk(st, e);
    ExecSettled(mid, rest, c, p);
    RespectedWithFirst(st, first, rest, c, p);
    FirstThenRest(st, first, rest);
  }

  lemma EventSettled(st: State, e: Event, c: ClientId, p: PacketId)
    requires Wired(st) && Settled(st, c, p) && EventUntaken(st, e, c, p)
    ensures Settled(Step(st, e), c, p) && AllRespect(st, Plan(st, e), c, p)
  {
    hide Plan, Exec, Wired, Settled, AllUntaken, AllRespect, AllKeep, AllWireOk, Connects, Inv;
    if Connects(st, e) {
      ConnectSettled(st, e, c, p);
    } else {
      PlainSettled(st, e, c, p);
    }
    ClockOfSettled(Exec(st, Plan(st, e)), st.clock + 1, c, p);
  }

  lemma PlainSettled(st: State, e: Event, c: ClientId, p: PacketId)
    requires Wired(st) && Settled(st, c, p) && EventUntaken(st, e, c, p) && !Connects(st, e)
    ensures Settled(Exec(st, Plan(st, e)), c, p) && AllRespect(st, Plan(st, e), c, p)
  {
    hide Plan, Exec, Wired, Settled, AllUntaken, AllRespect, AllKeep, Connects, Inv, Joined;
    SessionsOfWired(st);
    PlanOk(st, e);
    PlanIsPlain(st, e);
    PlanKeeps(st, e, c, p);
    ExecSettled(st, Plan(st, e), c, p);
  }

  lemma ClockOfSettled(st: State, t: int, c: ClientId, p: PacketId)
    requires Settled(st, c, p)
    ensures Settled(st.(clock := t), c, p)
  {
    var st' := st.(clock := t);
    assert forall n :: Clear(st', n, c, p) <==> Clear(st, n, c, p);
    assert forall l :: 0 <= l < |st.retries| ==> (Retrying(st', l, c, p) <==> Retrying(st, l, c, p));
  }

  predicate NthUntaken(st: State, events: seq<Event>, n: nat, c: ClientId, p: PacketId)
    requires n < |events|
  {
    EventUntaken(Run(st, events[..n]), events[n], c, p)
  }

  predicate NthRespects(st: State, events: seq<Event>, n: nat, c: ClientId, p: PacketId)
    requires n < |events|
  {
    AllRespect(Run(st, events[..n]), Plan(Run(st, events[..n]), events[n]), c, p)
  }

  lemma SameNth(st: State, events: seq<Event>, m: nat, n: nat, c: ClientId, p: PacketId)
    requires n < m <= |events|
    ensures NthUntaken(st, events[..m], n, c, p) == NthUntaken(st, events, n, c, p)
    ensures NthRespects(st, events[..m], n, c, p) == NthRespects(st, events, n, c, p)
  {
    hide Run, Plan, EventUntaken, AllRespect;
    assert events[..m][..n] == events[..n];
  }

  /** What is settled stays settled. */
  lemma {:induction false} RunSettled(st: State, events: seq<Event>, c: ClientId, p: PacketId)
    requires Wired(st) && Settled(st, c, p) && forall n :: 0 <= n < |events| ==> NthUntaken(st, events, n, c, p)
    ensures Settled(Run(st, events), c, p)
    ensures forall n :: 0 <= n < |events| ==> NthRespects(st, events, n, c, p)
    decreases |events|
  {
    hide Wired, Settled, Step, Plan, EventUntaken, AllRespect;
    if events != [] {
      var m := |events| - 1;
      forall n | 0 <= n < m ensures NthUntaken(st, events[..m], n, c, p) {
        SameNth(st, events, m, n, c, p);
      }
      RunSettled(st, events[..m], c, p);
      RunKeepsWired(st, events[..m]);
      assert NthUntaken(st, events, m, c, p);
      EventSettled(Run(st, events[..m]), events[m], c, p);
      forall n | 0 <= n < |events| ensures NthRespects(st, events, n, c, p) {
        if n < m {
          SameNth(st, events, m, n, c, p);
        }
      }
    }
  }

  // ---------- the acknowledgement ----------

  predicate Acknowledges(e: Event, k: ConnRef, p: PacketId) {
    (e.OnPubAck? || e.OnPubRec? || e.OnPubComp?) && e.conn == k && e.id == p
  }

  /** The message objects that an acknowledgement on a session is for: those in the broker's store and in the
      session's own, under the identifier. */
  predicate Meant(st: State, s: SessionRef, p: PacketId, m: MsgRef) {
    (p in st.store && st.store[p] == m) || HoldsAt(st, s.num, p, m)
  }

  /** A session object holds another copy, which is not acknowledged. */
  predicate OtherCopy(st: State, s: SessionRef, n: nat, p: PacketId) {
    && n < |st.sessions| && st.sessions[n].ref.id == s.id && !st.sessions[n].ref.clean
    && Unacked(st, n, p) && !Meant(st, s, p, st.sessions[n].messages[p])
  }

  /** No other copy is in a session object that a live connection or an index entry still points to, or on
      its way to the client in a retry loop. */
  ghost predicate NoOtherCopy(st: State, s: SessionRef, p: PacketId) {
    && (forall k :: 0 <= k < |st.conns| && st.conns[k].connected && st.conns[k].session.Some? ==>
          !OtherCopy(st, s, st.conns[k].session.value.num, p))
    && (forall q: Path, i :: 0 <= i < |T.SubsAt(st.topics, q)| ==> !OtherCopy(st, s, T.SubsAt(st.topics, q)[i].session.num, p))
    && (forall l :: 0 <= l < |st.retries| && Retrying(st, l, s.id, p) ==> Meant(st, s, p, st.retries[l].msg))
  }

  function Acknowledged(st: State, s: SessionRef, p: PacketId, status: AckStatus, delete: bool): State {
    DoAckSession(DoAckStored(st, p, status, delete), s.num, p, status, delete, true)
  }

  lemma AcknowledgingStep(st: State, e: Event, k: ConnRef, s: SessionRef, p: PacketId)
    returns (status: AckStatus, delete: bool, log: seq<LogEntry>)
    requires IO.Up(st, k, s) && Acknowledges(e, k, p)
    ensures Step(st, e) == Acknowledged(st, s, p, status, delete).(log := log, clock := st.clock + 1)
  {
    hide DoAckSession, DoAckStored;
    var plan := Plan(st, e);
    status, delete, log := plan[0].status, plan[0].delete, Exec(st, plan).log;
    assert plan[..2][..1] == plan[..1] && plan[..1][..0] == [] && plan[..2][1] == plan[1] && plan[..1][0] == plan[0];
    assert Exec(st, []) == st;
    assert Exec(st, plan[..1]) == DoAckStored(st, p, status, delete);
    assert Exec(st, plan[..2]) == Acknowledged(st, s, p, status, delete);
    if e.OnPubRec? {
      assert Exec(st, plan) == Logged(Exec(st, plan[..2]), Sent(k, PubRel(p), None));
    } else {
      assert plan[..2] == plan;
    }
  }

  lemma StatusAfter(msgs: seq<ClientMessage>, a: MsgRef, status: AckStatus, m: MsgRef)
    requires m < |msgs|
    ensures var r := WithStatus(msgs, a, status);
            && r[m].client == msgs[m].client
            && (r[m].status.Unacknowledged? <==> msgs[m].status.Unacknowledged? && m != a)
  {
  }

  lemma StoredAckParts(st: State, p: PacketId, status: AckStatus, delete: bool)
    ensures var st' := DoAckStored(st, p, status, delete);
            && st' == st.(msgs := st'.msgs, store := st'.store) && |st'.msgs| == |st.msgs|
            && forall m :: 0 <= m < |st.msgs| ==>
                 && st'.msgs[m].client == st.msgs[m].client
                 && (st'.msgs[m].status.Unacknowledged? <==> st.msgs[m].status.Unacknowledged? && !(p in st.store && st.store[p] == m))
  {
    hide WithStatus;
    if p in st.store {
      forall m | 0 <= m < |st.msgs| ensures StatusSet(st.msgs, DoAckStored(st, p, status, delete).msgs, st.store[p], m) {
        StatusAfter(st.msgs, st.store[p], status, m);
      }
    }
  }

  predicate StatusSet(before: seq<ClientMessage>, after: seq<ClientMessage>, a: MsgRef, m: MsgRef) {
    m < |before| && m < |after| && after[m].client == before[m].client
    && (after[m].status.Unacknowledged? <==> before[m].status.Unacknowledged? && m != a)
  }

  lemma SessionAckParts(st: State, num: nat, p: PacketId, status: AckStatus, delete: bool)
    requires num < |st.sessions|
    ensures var st' := AckedSession(st, num, p, status, delete);
            && st' == st.(msgs := st'.msgs, sessions := st'.sessions) && |st'.msgs| == |st.msgs| && |st'.sessions| == |st.sessions|
            && (forall n :: 0 <= n < |st.sessions| ==> st'.sessions[n].ref == st.sessions[n].ref)
            && (forall n :: 0 <= n < |st.sessions| && n != num ==> st'.sessions[n].messages == st.sessions[n].messages)
            && (forall m :: 0 <= m < |st.msgs| ==>
                  && st'.msgs[m].client == st.msgs[m].client
                  && (st'.msgs[m].status.Unacknowledged? <==> st.msgs[m].status.Unacknowledged? && !HoldsAt(st, num, p, m)))
            && (p in st'.sessions[num].messages ==> HoldsAt(st, num, p, st'.sessions[num].messages[p]))
  {
    hide WithStatus;
    if p in st.sessions[num].messages {
      var a := st.sessions[num].messages[p];
      forall m | 0 <= m < |st.msgs| ensures StatusSet(st.msgs, AckedSession(st, num, p, status, delete).msgs, a, m) {
        StatusAfter(st.msgs, a, status, m);
      }
    }
  }

  /** What an acknowledgement leaves: sessions, connections, entries and loops as they were, but for the
      identifier's own place; and exactly the messages that were meant are acknowledged. */
  lemma AcknowledgedParts(st: State, s: SessionRef, p: PacketId, status: AckStatus, delete: bool)
    requires StoreOk(st) && SessionsOk(st) && RefOk(st, s) && !s.clean
    ensures var st' := Acknowledged(st, s, p, status, delete);
            && st'.topics == st.topics && st'.conns == st.conns && st'.retries == st.retries
            && |st'.msgs| == |st.msgs| && |st'.sessions| == |st.sessions|
            && (forall m :: 0 <= m < |st.msgs| ==>
                  && st'.msgs[m].client == st.msgs[m].client
                  && (st'.msgs[m].status.Unacknowledged? <==> st.msgs[m].status.Unacknowledged? && !Meant(st, s, p, m)))
            && (forall n :: 0 <= n < |st.sessions| ==> st'.sessions[n].ref == st.sessions[n].ref)
            && (forall n :: 0 <= n < |st.sessions| && n != s.num ==> st'.sessions[n].messages == st.sessions[n].messages)
            && !Unacked(st', s.num, p)
            && !Outstanding(st', s.id, p)
  {
    assert SessionOk(st, s.num);
    var st1 := DoAckStored(st, p, status, delete);
    var st2 := AckedSession(st1, s.num, p, status, delete);
    StoredAckParts(st, p, status, delete);
    SessionAckParts(st1, s.num, p, status, delete);
    SavedKeepsRest(st2, s.num);
    SavedOutstanding(st2, s.num, s.id, p);
    assert Acknowledged(st, s, p, status, delete) == Saved(st2, s.num);
    hide DoAckStored, AckedSession, Saved, Acknowledged, SessionsOk, StoreOk;
    assert forall m :: HoldsAt(st1, s.num, p, m) <==> HoldsAt(st, s.num, p, m);
  }

  lemma UnackedAfterwards(st: State, s: SessionRef, n: nat, p: PacketId, status: AckStatus, delete: bool)
    requires StoreOk(st) && SessionsOk(st) && RefOk(st, s) && !s.clean
    ensures !Clear(Acknowledged(st, s, p, status, delete), n, s.id, p) <==> OtherCopy(st, s, n, p)
  {
    AcknowledgedParts(st, s, p, status, delete);
    hide Acknowledged;
    if n < |st.sessions| {
      assert SessionOk(st, n);
    }
  }

  lemma RetryingAfterwards(st: State, s: SessionRef, l: nat, p: PacketId, status: AckStatus, delete: bool)
    requires StoreOk(st) && SessionsOk(st) && RefOk(st, s) && !s.clean && l < |st.retries|
    ensures l < |Acknowledged(st, s, p, status, delete).retries|
    ensures Retrying(Acknowledged(st, s, p, status, delete), l, s.id, p)
       <==> Retrying(st, l, s.id, p) && !Meant(st, s, p, st.retries[l].msg)
  {
    AcknowledgedParts(st, s, p, status, delete);
    hide Acknowledged, Meant;
  }

  lemma AcknowledgedSettlesIff(st: State, s: SessionRef, p: PacketId, status: AckStatus, delete: bool)
    requires StoreOk(st) && SessionsOk(st) && RefOk(st, s) && !s.clean
    ensures Settled(Acknowledged(st, s, p, status, delete), s.id, p) <==> NoOtherCopy(st, s, p)
  {
    AcknowledgedParts(st, s, p, status, delete);
    var st' := Acknowledged(st, s, p, status, delete);
    forall n: nat ensures Clear(st', n, s.id, p) <==> !OtherCopy(st, s, n, p) {
      UnackedAfterwards(st, s, n, p, status, delete);
    }
    forall l | 0 <= l < |st.retries|
      ensures Retrying(st', l, s.id, p) <==> Retrying(st, l, s.id, p) && !Meant(st, s, p, st.retries[l].msg)
    {
      RetryingAfterwards(st, s, l, p, status, delete);
    }
    hide Acknowledged, Meant, Retrying, OtherCopy, Clear, Outstanding;
  }

  lemma UpParts(st: State, k: ConnRef, s: SessionRef)
    requires Inv(st) && IO.Up(st, k, s)
    ensures StoreOk(st) && SessionsOk(st) && RefOk(st, s)
  {
    assert ConnOk(st, k);
  }

  /** A PUBACK, PUBREC or PUBCOMP of a persistent client settles its message if and only if there is no
      other unacknowledged copy in use under the identifier. */
  lemma AcknowledgementSettlesIff(st: State, e: Event, k: ConnRef, s: SessionRef, p: PacketId)
    requires Inv(st) && IO.Up(st, k, s) && !s.clean && Acknowledges(e, k, p)
    ensures Settled(Step(st, e), s.id, p) <==> NoOtherCopy(st, s, p)
  {
    UpParts(st, k, s);
    hide Inv, Step, Settled, Acknowledged, NoOtherCopy;
    var status, delete, log := AcknowledgingStep(st, e, k, s, p);
    AcknowledgedSettlesIff(st, s, p, status, delete);
    LogAndClock(Acknowledged(st, s, p, status, delete), log, st.clock + 1, s.id, p);
  }

  lemma LogAndClock(st: State, log: seq<LogEntry>, t: int, c: ClientId, p: PacketId)
    ensures Settled(st.(log := log, clock := t), c, p) <==> Settled(st, c, p)
  {
    var st' := st.(log := log, clock := t);
    assert forall n :: Clear(st', n, c, p) <==> Clear(st, n, c, p);
    assert forall l :: 0 <= l < |st.retries| ==> (Retrying(st', l, c, p) <==> Retrying(st, l, c, p));
  }

  /** After any run of the broker, once a persistent client has acknowledged a message, no PUBLISH is written
      to any connection of the client under its identifier, by retry loops or on reconnecting, and the
      session store does not go back to holding it unacknowledged: through every run in which no new message
      takes the identifier, if no other copy was in use when it was acknowledged. */
  lemma {:induction false} AcknowledgedForGood(disk: Disk, earlier: seq<Event>, e: Event, k: ConnRef, s: SessionRef, p: PacketId,
                                               events: seq<Event>)
    requires IO.Up(Run(Initial(disk), earlier), k, s) && !s.clean && Acknowledges(e, k, p)
    requires NoOtherCopy(Run(Initial(disk), earlier), s, p)
    requires var now := Step(Run(Initial(disk), earlier), e);
             forall n :: 0 <= n < |events| ==> NthUntaken(now, events, n, s.id, p)
    ensures var now := Step(Run(Initial(disk), earlier), e);
            && !Outstanding(Run(now, events), s.id, p)
            && forall n :: 0 <= n < |events| ==> NthRespects(now, events, n, s.id, p)
  {
    hide Wired, Settled, Step, Run, NoOtherCopy, IO.Up, NthUntaken, NthRespects, Outstanding, Inv;
    var st := Run(Initial(disk), earlier);
    InitiallyWired(disk);
    RunKeepsWired(Initial(disk), earlier);
    InvOfWired(st);
    AcknowledgementSettlesIff(st, e, k, s, p);
    StepKeepsWired(st, e);
    RunSettled(Step(st, e), events, s.id, p);
    SettledParts(Run(Step(st, e), events), s.id, p);
  }

  lemma TakingDraws(st: State, a: Action, c: ClientId, p: PacketId)
    requires Takes(st, a, c, p)
    ensures Do(st, a).calls == st.calls + 1 && S.IdOfCall(st.calls) == p
  {
    hide S.IdOfCall, Snapshot;
  }

  lemma {:induction false} CallsBetween(st: State, actions: seq<Action>, i: nat)
    requires i < |actions|
    ensures st.calls <= Exec(st, actions[..i]).calls
    ensures Do(Exec(st, actions[..i]), actions[i]).calls <= Exec(st, actions).calls
    decreases |actions|
  {
    hide Do;
    var n := |actions| - 1;
    O.ExecCallsGrow(st, actions[..i]);
    if i < n {
      CallsBetween(st, actions[..n], i);
      assert actions[..n][..i] == actions[..i];
      O.CallsGrow(Exec(st, actions[..n]), actions[n]);
    }
  }

  lemma {:induction false} CallsUpTo(st: State, events: seq<Event>, n: nat)
    requires n <= |events|
    ensures st.calls <= Run(st, events[..n]).calls <= Run(st, events).calls
    decreases |events|
  {
    hide Step, Plan, Exec;
    if events == [] {
    } else if n == |events| {
      assert events[..n] == events;
      CallsUpTo(st, events[..n - 1], n - 1);
      O.RunCallsGrow(st, events, n - 1);
      assert events[..n - 1][..n - 1] == events[..n - 1];
    } else {
      CallsUpTo(st, events[..|events| - 1], n);
      O.RunCallsGrow(st, events, |events| - 1);
      assert events[..|events| - 1][..n] == events[..n] && events[..|events| - 1 + 1] == events;
    }
  }

  /** No new message takes an identifier before the sequencer has come round to it. */
  lemma {:induction false} UntakenBeforeWrap(st: State, events: seq<Event>, n: nat, call: nat, c: ClientId)
    requires n < |events| && call < st.calls && Run(st, events).calls <= call + S.PERIOD
    requires var mid := Run(st, events[..n]);
             IsConnectOf(events[n], c) && Connected(mid, Some(events[n].conn)) ==> mid.conns[events[n].conn].session.None?
    ensures NthUntaken(st, events, n, c, S.IdOfCall(call))
  {
    hide S.IdOfCall, Do, Takes, Plan, Run;
    var mid := Run(st, events[..n]);
    var plan := Plan(mid, events[n]);
    CallsUpTo(st, events, n);
    CallsUpTo(st, events, n + 1);
    OneEventMore(st, events, n);
    forall i | 0 <= i < |plan| ensures !Takes(Exec(mid, plan[..i]), plan[i], c, S.IdOfCall(call)) {
      var at := Exec(mid, plan[..i]);
      CallsBetween(mid, plan, i);
      if Takes(at, plan[i], c, S.IdOfCall(call)) {
        TakingDraws(at, plan[i], c, S.IdOfCall(call));
        S.FreshWithinPeriod(call, at.calls);
      }
    }
  }

  lemma OneEventMore(st: State, events: seq<Event>, n: nat)
    requires n < |events|
    ensures Run(st, events[..n + 1]) == Step(Run(st, events[..n]), events[n])
  {
    hide Step;
    assert events[..n + 1][..n] == events[..n];
  }

  // ---------- when a Publish brings it back ----------

  /** The session object through which the last copy for the client is queued. */
  function LastQueued(st: State, subs: seq<Subscription>, qos: byte, c: ClientId): Option<nat> {
    if subs == [] then None
    else
      var sub := subs[|subs| - 1];
      if FateOf(st, sub, qos).Kept? && sub.session.id == c then Some(sub.session.num)
      else LastQueued(st, subs[..|subs| - 1], qos, c)
  }

  predicate BroughtBack(st: State, subs: seq<Subscription>, qos: byte, c: ClientId, p: PacketId) {
    var n := LastQueued(st, subs, qos, c);
    n.Some? && Unacked(st, n.value, p)
  }

  /** None of the identifiers that a Publish draws. */
  predicate NotDrawn(st: State, subs: seq<Subscription>, qos: byte, p: PacketId) {
    forall i :: 0 <= i < |subs| && CopyQos(subs[i], qos) > 0 ==> CopyId(st, subs, i, qos) != p
  }

  lemma UnackedUnderDeliver(st: State, sub: Subscription, topic: Bytes, payload: Bytes, qos: byte, n: nat, p: PacketId)
    requires SessionsOk(st) && (CopyQos(sub, qos) > 0 ==> S.IdOfCall(st.calls) != p)
    ensures Unacked(DoDeliver(st, sub, topic, payload, qos), n, p) <==> Unacked(st, n, p)
  {
    if n < |st.sessions| {
      assert SessionOk(st, n);
    }
    hide S.IdOfCall, Snapshot;
  }

  lemma OutstandingUnderDeliver(st: State, sub: Subscription, topic: Bytes, payload: Bytes, qos: byte, c: ClientId, p: PacketId)
    requires SessionsOk(st) && RefOk(st, sub.session) && (CopyQos(sub, qos) > 0 ==> S.IdOfCall(st.calls) != p)
    ensures Outstanding(DoDeliver(st, sub, topic, payload, qos), c, p) <==>
            if FateOf(st, sub, qos).Kept? && sub.session.id == c then Unacked(st, sub.session.num, p) else Outstanding(st, c, p)
  {
    hide S.IdOfCall, Unacked, Outstanding, DoDeliver;
    OutstandingAfter(st, Deliver(sub, topic, payload, qos), c, p);
    SessionsPersist(st, Deliver(sub, topic, payload, qos));
    UnackedUnderDeliver(st, sub, topic, payload, qos, sub.session.num, p);
  }

  lemma NotDrawnBefore(st: State, subs: seq<Subscription>, qos: byte, p: PacketId)
    requires subs != [] && NotDrawn(st, subs, qos, p)
    ensures NotDrawn(st, subs[..|subs| - 1], qos, p)
    ensures CopyQos(subs[|subs| - 1], qos) > 0 ==> S.IdOfCall(st.calls + Numbered(subs[..|subs| - 1], qos)) != p
  {
    hide CopyQos, S.IdOfCall;
    var n := |subs| - 1;
    forall i | 0 <= i < n && CopyQos(subs[..n][i], qos) > 0 ensures CopyId(st, subs[..n], i, qos) != p {
      assert subs[..n][..i] == subs[..i];
      assert CopyId(st, subs, i, qos) != p;
    }
    assert CopyQos(subs[n], qos) > 0 ==> CopyId(st, subs, n, qos) != p;
  }

  /** Between two copies: how the session store and the sessions compare with where they were at first. */
  ghost predicate Comparable(st: State, mid: State, subs: seq<Subscription>, qos: byte, c: ClientId, p: PacketId) {
    && SessionsOk(mid) && (Outstanding(mid, c, p) <==> BroughtBack(st, subs, qos, c, p))
    && forall n :: Unacked(mid, n, p) <==> Unacked(st, n, p)
  }

  lemma StillComparable(st: State, mid: State, subs: seq<Subscription>, topic: Bytes, payload: Bytes, qos: byte, c: ClientId, p: PacketId)
    requires subs != [] && Comparable(st, mid, subs[..|subs| - 1], qos, c, p) && SameWorld(st, mid)
    requires RefOk(st, subs[|subs| - 1].session) && (CopyQos(subs[|subs| - 1], qos) > 0 ==> S.IdOfCall(mid.calls) != p)
    ensures Comparable(st, DoDeliver(mid, subs[|subs| - 1], topic, payload, qos), subs, qos, c, p)
  {
    hide DoDeliver, Unacked, Outstanding, FateOf, CopyQos, S.IdOfCall, SessionsOk;
    var sub := subs[|subs| - 1];
    SameFate(st, mid, sub, qos);
    assert RefOk(mid, sub.session);
    OutstandingUnderDeliver(mid, sub, topic, payload, qos, c, p);
    SessionsKept(mid, Deliver(sub, topic, payload, qos));
    forall h: nat ensures Unacked(DoDeliver(mid, sub, topic, payload, qos), h, p) <==> Unacked(st, h, p) {
      UnackedUnderDeliver(mid, sub, topic, payload, qos, h, p);
    }
  }

  lemma ComparableAtFirst(st: State, qos: byte, c: ClientId, p: PacketId)
    requires SessionsOk(st) && !Outstanding(st, c, p)
    ensures Comparable(st, st, [], qos, c, p)
  {
  }

  lemma {:induction false} OutstandingAfterAll(st: State, subs: seq<Subscription>, topic: Bytes, payload: Bytes, qos: byte, c: ClientId, p: PacketId)
    requires SessionsOk(st) && NotDrawn(st, subs, qos, p) && !Outstanding(st, c, p)
    requires forall i :: 0 <= i < |subs| ==> RefOk(st, subs[i].session)
    ensures Comparable(st, After(st, subs, topic, payload, qos), subs, qos, c, p)
    decreases |subs|
  {
    hide DoDeliver, Comparable, SessionsOk, Outstanding, NotDrawn, SameWorld, CopyQos, S.IdOfCall, RefOk, Numbered;
    if subs == [] {
      ComparableAtFirst(st, qos, c, p);
    } else {
      var n := |subs| - 1;
      NotDrawnBefore(st, subs, qos, p);
      assert RefOk(st, subs[n].session);
      OutstandingAfterAll(st, subs[..n], topic, payload, qos, c, p);
      WorldAfter(st, subs[..n], topic, payload, qos);
      LastStep(st, subs, topic, payload, qos);
      hide After;
      StillComparable(st, After(st, subs[..n], topic, payload, qos), subs, topic, payload, qos, c, p);
    }
  }

  /** A Publish brings an acknowledged message back into the session store if and only if the last copy that
      it queues for the client goes through an entry of a session object that still holds the message
      unacknowledged. */
  lemma PublishBringsBackIff(st: State, topic: Bytes, payload: Bytes, qos: byte, retain: bool, c: ClientId, p: PacketId)
    requires Inv(st) && ValidTopicName(topic) && !Outstanding(st, c, p)
    requires NotDrawn(st, Recipients(T.Match(st.topics, Split(topic))), qos, p)
    ensures Outstanding(Exec(st, PlanPublish(st.topics, topic, payload, qos, retain, st.clock)), c, p)
       <==> BroughtBack(st, Recipients(T.Match(st.topics, Split(topic))), qos, c, p)
  {
    RecipientsOk(st, Split(topic));
    hide T.Match, Recipients, I.Apply, Exec, PlanPublish, Split, After, Unacked, Outstanding, FateOf, ValidTopicName;
    var subs := Recipients(T.Match(st.topics, Split(topic)));
    var mid := AfterRetaining(st, topic, payload, qos, retain);
    PublishIsDeliveries(st, topic, payload, qos, retain);
    AfterIsExec(mid, subs, topic, payload, qos);
    MidLikeNow(st, topic, payload, qos, retain, subs, c, p);
    OutstandingAfterAll(mid, subs, topic, payload, qos, c, p);
  }

  lemma MidLikeNow(st: State, topic: Bytes, payload: Bytes, qos: byte, retain: bool, subs: seq<Subscription>, c: ClientId, p: PacketId)
    requires Inv(st)
    ensures var mid := AfterRetaining(st, topic, payload, qos, retain);
            && SessionsOk(mid) && (forall s :: RefOk(st, s) ==> RefOk(mid, s))
            && (Outstanding(mid, c, p) <==> Outstanding(st, c, p))
            && (NotDrawn(st, subs, qos, p) ==> NotDrawn(mid, subs, qos, p))
            && (BroughtBack(mid, subs, qos, c, p) <==> BroughtBack(st, subs, qos, c, p))
  {
    hide I.Apply, T.Match, Recipients;
    var mid := AfterRetaining(st, topic, payload, qos, retain);
    assert mid == st.(topics := mid.topics);
    hide AfterRetaining;
    assert forall n :: 0 <= n < |st.sessions| && SessionOk(st, n) ==> SessionOk(mid, n);
    assert forall i :: 0 <= i < |subs| ==> CopyId(mid, subs, i, qos) == CopyId(st, subs, i, qos);
    LastQueuedTopics(st, mid, subs, qos, c);
  }

  lemma {:induction false} LastQueuedTopics(st: State, mid: State, subs: seq<Subscription>, qos: byte, c: ClientId)
    requires mid == st.(topics := mid.topics)
    ensures LastQueued(mid, subs, qos, c) == LastQueued(st, subs, qos, c)
    decreases |subs|
  {
    if subs != [] {
      LastQueuedTopics(st, mid, subs[..|subs| - 1], qos, c);
    }
  }
}

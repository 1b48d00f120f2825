/** A connection served: bytes in, the broker's objects changed, bytes out. */
module Serving {
  import opened Base
  import opened Sessions
  import opened Delivery
  import opened Listening
  import opened Broker

  function StreamOf(ps: seq<ClientPacket>): Bytes {
    if ps == [] then [] else PacketBytes(ps[0]) + StreamOf(ps[1..])
  }

  predicate AllSendable(ps: seq<ClientPacket>) {
    forall i :: 0 <= i < |ps| ==> Sendable(ps[i])
  }

  /** The meaning of the packets one by one; `uuids` are what clients without an id would get. */
  function EventsOf(k: ConnRef, ps: seq<ClientPacket>, uuids: int -> ClientId): seq<Event> {
    seq(|ps|, i requires 0 <= i < |ps| => EventOf(k, ps[i], uuids(i)))
  }

  lemma NextPacket(ps: seq<ClientPacket>, i: nat)
    requires i < |ps|
    ensures StreamOf(ps[i..]) == PacketBytes(ps[i]) + StreamOf(ps[i + 1..])
  {
  }

  lemma RunNext(st: State, events: seq<Event>, e: Event)
    ensures Run(st, events + [e]) == Step(Run(st, events), e)
  {
    assert (events + [e])[..|events|] == events;
  }

  /** What a read does with a well-formed packet. */
  ghost predicate Reads(k: ConnRef, stream: Bytes, uuid: ClientId, e: Event, rest: Bytes) {
    && (stream == [] ==> e == OnError(k))
    && forall p: ClientPacket, tail :: Sendable(p) && stream == PacketBytes(p) + tail ==> e == EventOf(k, p, uuid) && rest == tail
  }

  lemma ListenReads(k: ConnRef, stream: Bytes, uuid: ClientId, e: Event, rest: Bytes)
    requires !e.Accept? && !e.OnTick? && e.conn == k && (!e.OnError? ==> exists p :: StartsWith(stream, p, rest))
    requires forall p, r :: StartsWith(stream, p, r) ==> e == EventOf(k, p, uuid) && rest == r
    ensures Reads(k, stream, uuid, e, rest)
  {
    hide Announces, Holds, Sendable, PacketBytes, EventOf;
    forall p: ClientPacket, tail | Sendable(p) && stream == PacketBytes(p) + tail ensures StartsWith(stream, p, tail) {
      SendableStarts(p, tail);
    }
  }

  // ---------- any stream ----------

  /** The bytes are one packet after another, as far as the source looks, then `rest`; the events are what they mean. */
  ghost predicate Taken(k: ConnRef, stream: Bytes, uuids: int -> ClientId, events: seq<Event>, rest: Bytes) {
    if events == [] then rest == stream
    else
      var n := |events| - 1;
      exists p, before :: Taken(k, stream, uuids, events[..n], before) && StartsWith(before, p, rest) && events[n] == EventOf(k, p, uuids(n))
  }

  ghost predicate Unreadable(stream: Bytes) {
    forall p, rest :: !StartsWith(stream, p, rest)
  }

  /** All of the events come from packets, or the last one is an error and the bytes it stands for start with none. */
  ghost predicate Served(k: ConnRef, stream: Bytes, uuids: int -> ClientId, events: seq<Event>, connected: bool) {
    || (!connected && exists rest :: Taken(k, stream, uuids, events, rest))
    || (events != [] && events[|events| - 1] == OnError(k)
        && exists rest :: Taken(k, stream, uuids, events[..|events| - 1], rest) && Unreadable(rest))
  }

  lemma TakenNext(k: ConnRef, stream: Bytes, uuids: int -> ClientId, events: seq<Event>, before: Bytes, e: Event, rest: Bytes)
    requires Taken(k, stream, uuids, events, before)
    requires !e.Accept? && !e.OnTick? && e.conn == k && (!e.OnError? ==> exists p :: StartsWith(before, p, rest))
    requires forall p, r :: StartsWith(before, p, r) ==> e == EventOf(k, p, uuids(|events|)) && rest == r
    ensures !e.OnError? ==> Taken(k, stream, uuids, events + [e], rest)
    ensures e.OnError? ==> forall connected :: Served(k, stream, uuids, events + [e], connected)
  {
    hide StartsWith, EventOf;
    assert (events + [e])[..|events|] == events;
    if e.OnError? {
      forall p, r | StartsWith(before, p, r) ensures false {
        NoError(k, p, uuids(|events|));
      }
      assert Unreadable(before);
    } else {
      var p :| StartsWith(before, p, rest);
    }
  }

  lemma TakenEnds(k: ConnRef, stream: Bytes, uuids: int -> ClientId, events: seq<Event>, rest: Bytes)
    requires Taken(k, stream, uuids, events, rest)
    ensures Served(k, stream, uuids, events, false)
  {
    hide Taken;
  }

  // ---------- well-formed packets ----------

  /** So far the events are the meanings of the packets at the front of the stream, and `rest` is the others. */
  ghost predicate Follows(k: ConnRef, stream: Bytes, uuids: int -> ClientId, events: seq<Event>, rest: Bytes) {
    forall ps :: AllSendable(ps) && stream == StreamOf(ps) ==>
      |events| <= |ps| && events == EventsOf(k, ps, uuids)[..|events|] && rest == StreamOf(ps[|events|..])
  }

  /** At the end: the meanings of some of the packets, or of all of them and the end of the input. */
  ghost predicate Ended(k: ConnRef, stream: Bytes, uuids: int -> ClientId, events: seq<Event>, all: bool) {
    forall ps :: AllSendable(ps) && stream == StreamOf(ps) ==>
      && events <= EventsOf(k, ps, uuids) + [OnError(k)]
      && (all ==> events == EventsOf(k, ps, uuids) + [OnError(k)])
  }

  /** A read at the front of what is left takes the next packet, or finds the end. */
  lemma {:induction false} ReadsNext(k: ConnRef, stream: Bytes, uuids: int -> ClientId, events: seq<Event>, before: Bytes, e: Event, rest: Bytes, ps: seq<ClientPacket>)
    requires Follows(k, stream, uuids, events, before) && Reads(k, before, uuids(|events|), e, rest)
    requires AllSendable(ps) && stream == StreamOf(ps)
    ensures |events| <= |ps| && events == EventsOf(k, ps, uuids)[..|events|]
    ensures |events| < |ps| ==> e == EventOf(k, ps[|events|], uuids(|events|)) != OnError(k) && rest == StreamOf(ps[|events| + 1..])
    ensures |events| == |ps| ==> e == OnError(k)
  {
    hide Sendable, PacketBytes, EventOf;
    if |events| < |ps| {
      NextPacket(ps, |events|);
      assert Sendable(ps[|events|]) && before == PacketBytes(ps[|events|]) + StreamOf(ps[|events| + 1..]);
      NoError(k, ps[|events|], uuids(|events|));
    } else {
      assert ps[|events|..] == [];
    }
  }

  lemma FollowsNext(k: ConnRef, stream: Bytes, uuids: int -> ClientId, events: seq<Event>, before: Bytes, e: Event, rest: Bytes)
    requires Follows(k, stream, uuids, events, before) && Reads(k, before, uuids(|events|), e, rest) && e != OnError(k)
    ensures Follows(k, stream, uuids, events + [e], rest)
  {
    hide Sendable, StreamOf, EventOf, Reads, AllSendable;
    forall ps | AllSendable(ps) && stream == StreamOf(ps)
      ensures |events| < |ps| && events + [e] == EventsOf(k, ps, uuids)[..|events| + 1] && rest == StreamOf(ps[|events| + 1..])
    {
      ReadsNext(k, stream, uuids, events, before, e, rest, ps);
    }
  }

  lemma FollowsError(k: ConnRef, stream: Bytes, uuids: int -> ClientId, events: seq<Event>, before: Bytes, rest: Bytes)
    requires Follows(k, stream, uuids, events, before) && Reads(k, before, uuids(|events|), OnError(k), rest)
    ensures forall all :: Ended(k, stream, uuids, events + [OnError(k)], all)
  {
    hide Sendable, StreamOf, EventOf, Reads, AllSendable;
    forall ps | AllSendable(ps) && stream == StreamOf(ps)
      ensures events + [OnError(k)] == EventsOf(k, ps, uuids) + [OnError(k)]
    {
      ReadsNext(k, stream, uuids, events, before, OnError(k), rest, ps);
    }
  }

  lemma NoError(k: ConnRef, p: ClientPacket, uuid: ClientId)
    ensures EventOf(k, p, uuid) != OnError(k)
  {
  }

  lemma FollowsEnds(k: ConnRef, stream: Bytes, uuids: int -> ClientId, events: seq<Event>, rest: Bytes)
    requires Follows(k, stream, uuids, events, rest)
    ensures Ended(k, stream, uuids, events, false)
  {
  }

  lemma FollowsFirst(k: ConnRef, stream: Bytes, uuids: int -> ClientId)
    ensures Follows(k, stream, uuids, [], stream)
  {
    forall ps | AllSendable(ps) && stream == StreamOf(ps) ensures stream == StreamOf(ps[0..]) {
      assert ps[0..] == ps;
    }
  }

  /** listen (client.go:109), with nothing else going on: any stream takes the broker through the run of the
      meanings of the packets that it starts with, one after another, until one of them closes the connection or
      the bytes that are left start with none, and a stream of well-formed packets of exactly those; what is
      written on the way is the log of that run, byte for byte. */
  method Serve(b: Gott, k: ConnRef, stream: Bytes, uuids: int -> ClientId) returns (events: seq<Event>)
    requires b.Valid()
    modifies b, b.sessions, b.messageStore, b.heap, b.packetSeq, b.topics, b.topics.levels, b.topics.lists
    ensures b.Valid() && b.View() == Run(old(b.View()), events)
    ensures b.written == BytesOf(b.log)
    ensures forall i :: 0 <= i < |events| ==> EventFits(events[i])
    ensures Served(k, stream, uuids, events, Connected(b.View(), Some(k)))
    ensures Ended(k, stream, uuids, events, Connected(b.View(), Some(k)))
  {
    hide Run, Step, Sendable, Follows, Ended, EventFits, Gott.Valid, Served, StartsWith, EventOf;
    ghost var start := b.View();
    events := [];
    var rest := stream;
    RunNone(start);
    FollowsFirst(k, stream, uuids);
    FollowsEnds(k, stream, uuids, events, rest);
    while b.IsConnected(Some(k))
      invariant b.Valid() && b.View() == Run(start, events)
      invariant fresh(b.topics.levels - old(b.topics.levels)) && fresh(b.topics.lists - old(b.topics.lists))
      invariant Taken(k, stream, uuids, events, rest)
      invariant Follows(k, stream, uuids, events, rest)
      invariant Ended(k, stream, uuids, events, false)
      invariant forall i :: 0 <= i < |events| ==> EventFits(events[i])
      decreases |rest|
    {
      ghost var before := rest;
      var e;
      e, rest := Listen(k, rest, uuids(|events|));
      ListenReads(k, before, uuids(|events|), e, rest);
      TakenNext(k, stream, uuids, events, before, e, rest);
      if e.OnError? {
        FollowsError(k, stream, uuids, events, before, rest);
      } else {
        FollowsNext(k, stream, uuids, events, before, e, rest);
      }
      RunNext(start, events, e);
      b.Handle(e);
      events := events + [e];
      if e.OnError? {
        b.WrittenIsLogged();
        assert Ended(k, stream, uuids, events, Connected(b.View(), Some(k)));
        return;
      }
      FollowsEnds(k, stream, uuids, events, rest);
    }
    TakenEnds(k, stream, uuids, events, rest);
    b.WrittenIsLogged();
  }

  lemma RunNone(st: State)
    ensures Run(st, []) == st
  {
  }
}

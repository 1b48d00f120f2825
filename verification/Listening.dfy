/** The reading half of the loop of listen (client.go:133-660): the bytes of a connection become events. */
module Listening {
  import opened Base
  import opened Filters
  import opened Encoding
  import opened Sessions
  import opened Delivery
  import C = Connect
  import P = Packets
  import X = Extractors

  // ---------- what a client sends ----------

  datatype ClientPacket =
    | Connecting(options: C.ConnectFlags, keepAlive: PacketId, fields: C.Fields)
    | Publishing(topic: Bytes, payload: Bytes, flags: P.PublishFlags, id: PacketId)
    | PubAcked(id: PacketId)
    | PubReceived(id: PacketId)
    | PubReleased(id: PacketId)
    | PubCompleted(id: PacketId)
    | Subscribing(id: PacketId, filters: seq<P.FilterQos>)
    | Unsubscribing(id: PacketId, names: seq<Bytes>)
    | Pinging
    | Disconnecting

  /** "MQTT" with its length, and protocol level 4: section 3.1.2 of MQTT 3.1.1. */
  const PROTOCOL: Bytes := [0, 4, 77, 81, 84, 84, 4]

  function First(p: ClientPacket): byte {
    match p
    case Connecting(_, _, _) => 1 * 16
    case Publishing(_, _, flags, _) => P.FixedFirst(flags.dup, flags.qos, C.Bit(flags.retain))
    case PubAcked(_) => 4 * 16
    case PubReceived(_) => 5 * 16
    case PubReleased(_) => 6 * 16 + 2
    case PubCompleted(_) => 7 * 16
    case Subscribing(_, _) => 8 * 16 + 2
    case Unsubscribing(_, _) => 10 * 16 + 2
    case Pinging => 12 * 16
    case Disconnecting => 14 * 16
  }

  function Body(p: ClientPacket): Bytes {
    match p
    case Connecting(options, keepAlive, fields) => PROTOCOL + [C.FlagsByte(options) % 256] + P.Uint16Bytes(keepAlive) + C.Serialized(fields)
    case Publishing(topic, payload, flags, id) => P.VarHeader(id, topic, flags.qos) + payload
    case PubAcked(id) => P.Uint16Bytes(id)
    case PubReceived(id) => P.Uint16Bytes(id)
    case PubReleased(id) => P.Uint16Bytes(id)
    case PubCompleted(id) => P.Uint16Bytes(id)
    case Subscribing(id, filters) => P.Uint16Bytes(id) + X.SubPayload(filters)
    case Unsubscribing(id, names) => P.Uint16Bytes(id) + X.UnsubPayload(names)
    case Pinging => []
    case Disconnecting => []
  }

  /** Section 2.2.3 of MQTT 3.1.1: unlike Encode, a length of 0 takes a byte. */
  function Length(n: nat): Bytes {
    if n == 0 then [0] else Encoded(n)
  }

  function PacketBytes(p: ClientPacket): Bytes {
    [First(p)] + Length(|Body(p)|) + Body(p)
  }

  /** What the broker takes: fields that fit their length bytes, a remaining length of three bytes. */
  predicate Sendable(p: ClientPacket) {
    && (p.Connecting? ==> C.ValidFlags(p.options) && C.Acceptable(p.options, p.fields))
    && (p.Publishing? ==> ValidTopicName(p.topic) && |p.topic| < 65536 && p.flags.dup <= 1 && p.flags.qos <= 2)
    && (p.Subscribing? ==> p.filters != [] && X.SubSerializable(p.filters))
    && (p.Unsubscribing? ==> X.UnsubSerializable(p.names) && |X.UnsubPayload(p.names)| >= 3)
    && |Body(p)| < LIMIT
  }

  /** One character per byte, as Go's conversion of a byte slice keeps every byte. */
  function Text(b: Bytes): (t: ClientId)
    ensures |t| == |b| && forall i :: 0 <= i < |b| ==> t[i] as int == b[i]
  {
    seq(|b|, i requires 0 <= i < |b| => b[i] as char)
  }

  /** A will carries the zero time. */
  function WillOf(flags: C.ConnectFlags, w: Option<C.Will>): Option<Message> {
    if w.Some? then Some(Message(w.value.topic, w.value.payload, flags.willQos, flags.willRetain, 0)) else None
  }

  /** What a packet means; `generated` is the UUID a client without an id would get. */
  function EventOf(k: ConnRef, p: ClientPacket, generated: ClientId): Event {
    match p
    case Connecting(options, _, f) =>
      OnConnect(k, if f.clientID == [] then generated else Text(f.clientID), options.cleanSession, WillOf(options, f.will))
    case Publishing(topic, payload, flags, id) => OnPublish(k, topic, payload, flags, if flags.qos > 0 then id else 0)
    case PubAcked(id) => OnPubAck(k, id)
    case PubReceived(id) => OnPubRec(k, id)
    case PubReleased(id) => OnPubRel(k, id)
    case PubCompleted(id) => OnPubComp(k, id)
    case Subscribing(id, filters) => OnSubscribe(k, id, filters)
    case Unsubscribing(id, names) => OnUnsubscribe(k, id, names)
    case Pinging => OnPingReq(k)
    case Disconnecting => OnDisconnect(k)
  }

  /** Different client ids are different clients. */
  lemma TextIsInjective(a: Bytes, b: Bytes)
    ensures Text(a) == Text(b) <==> a == b
  {
    if Text(a) == Text(b) {
      forall i | 0 <= i < |a| ensures a[i] == b[i] {
        assert Text(a)[i] == Text(b)[i];
      }
    }
  }

  /** Two CONNECTs with ids of their own are of one client if and only if the ids are the same bytes; a CONNECT
      without one is of a client by the id that was generated for it. */
  lemma SameClientIff(j: ConnRef, k: ConnRef, p: ClientPacket, q: ClientPacket, g: ClientId, h: ClientId)
    requires p.Connecting? && q.Connecting? && p.fields.clientID != []
    ensures q.fields.clientID != [] ==>
      (EventOf(j, p, g).client == EventOf(k, q, h).client <==> p.fields.clientID == q.fields.clientID)
    ensures q.fields.clientID == [] ==> EventOf(k, q, h).client == h
    ensures EventOf(j, p, g).client != ""
  {
    hide Text;
    TextIsInjective(p.fields.clientID, q.fields.clientID);
  }

  /** A CONNECT asks for a clean session as its flag says, and leaves a will if and only if its flag says so, with
      the topic, the payload, the QoS and the RETAIN flag that were sent. */
  lemma ConnectMeaning(k: ConnRef, p: ClientPacket, g: ClientId)
    requires p.Connecting? && Sendable(p)
    ensures var e := EventOf(k, p, g);
            && e.OnConnect? && e.conn == k && (e.clean <==> p.options.cleanSession) && (e.will.Some? <==> p.options.willFlag)
            && (e.will.Some? ==>
                  && p.fields.will.Some?
                  && e.will.value.topic == p.fields.will.value.topic && e.will.value.payload == p.fields.will.value.payload
                  && e.will.value.qos == p.options.willQos && e.will.value.retain == p.options.willRetain)
  {
    hide Text, C.Serialized;
  }

  /** All others keep what was sent, on their connection: the identifier, the filters with their QoS, the topic, the
      payload and the flags; only a PUBLISH of QoS 0 has no identifier. */
  lemma PacketMeaning(k: ConnRef, p: ClientPacket, g: ClientId)
    requires !p.Connecting?
    ensures var e := EventOf(k, p, g);
            && e.conn == k
            && (p.Publishing? <==> e.OnPublish?) && (p.Publishing? ==> e.topic == p.topic && e.payload == p.payload && e.flags == p.flags)
            && (p.Publishing? ==> e.id == if p.flags.qos == 0 then 0 else p.id)
            && (p.PubAcked? <==> e.OnPubAck?) && (p.PubReceived? <==> e.OnPubRec?)
            && (p.PubReleased? <==> e.OnPubRel?) && (p.PubCompleted? <==> e.OnPubComp?)
            && (4 <= TypeOf(p) <= 10 ==> e.id == p.id)
            && (p.Subscribing? <==> e.OnSubscribe?) && (p.Subscribing? ==> e.filters == p.filters)
            && (p.Unsubscribing? <==> e.OnUnsubscribe?) && (p.Unsubscribing? ==> e.names == p.names)
            && (p.Pinging? <==> e.OnPingReq?) && (p.Disconnecting? <==> e.OnDisconnect?)
  {
  }

  /** Packets of clients, byte by byte: those with no more than an identifier, and the two without a body. */
  lemma AckBytes()
    ensures PacketBytes(PubAcked(0x0102)) == [0x40, 2, 1, 2] && PacketBytes(PubReceived(0x0102)) == [0x50, 2, 1, 2]
    ensures PacketBytes(PubReleased(0x0102)) == [0x62, 2, 1, 2] && PacketBytes(PubCompleted(0x0102)) == [0x70, 2, 1, 2]
    ensures PacketBytes(Pinging) == [0xC0, 0] && PacketBytes(Disconnecting) == [0xE0, 0]
    ensures Sendable(PubAcked(0x0102)) && Sendable(PubReceived(0x0102)) && Sendable(PubReleased(0x0102)) && Sendable(PubCompleted(0x0102))
    ensures Sendable(Pinging) && Sendable(Disconnecting)
  {
  }

  /** A SUBSCRIBE for "a/b" at QoS 1. */
  lemma SubscribeBytes()
    ensures PacketBytes(Subscribing(0x0102, [P.FilterQos([97, 47, 98], 1)])) == [0x82, 8, 1, 2, 0, 3, 97, 47, 98, 1]
    ensures Sendable(Subscribing(0x0102, [P.FilterQos([97, 47, 98], 1)]))
  {
    var one := [P.FilterQos([97, 47, 98], 1)];
    assert one[1..] == [] && X.SubPayload(one) == [0, 3, 97, 47, 98, 1];
    hide X.SubPayload;
  }

  /** An UNSUBSCRIBE for it. */
  lemma UnsubscribeBytes()
    ensures PacketBytes(Unsubscribing(0x0102, [[97, 47, 98]])) == [0xA2, 7, 1, 2, 0, 3, 97, 47, 98]
    ensures Sendable(Unsubscribing(0x0102, [[97, 47, 98]]))
  {
    var one: seq<Bytes> := [[97, 47, 98]];
    assert one[1..] == [] && X.UnsubPayload(one) == [0, 3, 97, 47, 98];
    hide X.UnsubPayload;
  }

  /** A CONNECT of "c" with a clean session and 60 seconds of keep-alive. */
  lemma ConnectBytes()
    ensures PacketBytes(Connecting(C.ConnectFlags(true, false, false, false, false, 0), 60, C.Fields([99], None, None, None)))
         == [0x10, 13, 0, 4, 77, 81, 84, 84, 4, 2, 0, 60, 0, 1, 99]
    ensures Sendable(Connecting(C.ConnectFlags(true, false, false, false, false, 0), 60, C.Fields([99], None, None, None)))
  {
    var options := C.ConnectFlags(true, false, false, false, false, 0);
    var fields := C.Fields([99], None, None, None);
    assert C.Serialized(fields) == [0, 1, 99];
    assert C.FlagsByte(options) == 2;
    hide C.Serialized, C.FlagsByte;
    assert Body(Connecting(options, 60, fields)) == [0, 4, 77, 81, 84, 84, 4, 2, 0, 60, 0, 1, 99];
  }

  // ---------- what is let through ----------

  /** What makes a PUBLISH that can be read back: a topic name with a two-byte length, a QoS of at most 2,
      and a remaining length of at most three bytes. */
  predicate Fits(topic: Bytes, payload: Bytes, qos: byte) {
    && ValidTopicName(topic) && |topic| < 65536 && qos <= 2
    && 2 + |topic| + (if qos > 0 then 2 else 0) + |payload| < LIMIT
  }

  predicate MessageFits(m: Message) {
    Fits(m.topic, m.payload, m.qos)
  }

  /** A will's topic is checked when the will is published. */
  predicate WillFits(w: Option<Message>) {
    w.Some? && ValidTopicName(w.value.topic) ==> MessageFits(w.value)
  }

  /** What the decoders of client.go let through. */
  predicate EventFits(e: Event) {
    && (e.OnPublish? && ValidTopicName(e.topic) ==> Fits(e.topic, e.payload, e.flags.qos))
    && (e.OnConnect? ==> WillFits(e.will))
  }

  // ---------- the header ----------

  lemma LengthArrives(first: byte, n: nat, body: Bytes)
    requires n < LIMIT
    ensures HeaderOf([first] + Length(n) + body) == Some(Header(first, Length(n), body))
    ensures Decoded(Length(n)) == Ok(n)
  {
    if n == 0 {
      var s := [first] + [0] + body;
      assert s[1..] == [0] + body && s[1..2] == [0] && s[2..] == body;
    } else {
      HeaderOfPacket(first, n, body);
      DecodeUndoesEncode(n, []);
      assert Encoded(n) + [] == Encoded(n);
    }
  }

  lemma HeaderArrives(p: ClientPacket, tail: Bytes)
    requires Sendable(p)
    ensures HeaderOf(PacketBytes(p) + tail) == Some(Header(First(p), Length(|Body(p)|), Body(p) + tail))
    ensures Decoded(Length(|Body(p)|)) == Ok(|Body(p)|)
    ensures (Body(p) + tail)[..|Body(p)|] == Body(p) && (Body(p) + tail)[|Body(p)|..] == tail
  {
    hide Sendable, HeaderOf, Body, First, Length, Decoded;
    assert |Body(p)| < LIMIT by { BodyFits(p); }
    LengthArrives(First(p), |Body(p)|, Body(p) + tail);
    assert PacketBytes(p) + tail == [First(p)] + Length(|Body(p)|) + (Body(p) + tail);
  }

  lemma BodyFits(p: ClientPacket)
    requires Sendable(p)
    ensures |Body(p)| < LIMIT
  {
  }

  // ---------- what is taken ----------

  function TypeOf(p: ClientPacket): byte {
    match p
    case Connecting(_, _, _) => 1
    case Publishing(_, _, _, _) => 3
    case PubAcked(_) => 4
    case PubReceived(_) => 5
    case PubReleased(_) => 6
    case PubCompleted(_) => 7
    case Subscribing(_, _) => 8
    case Unsubscribing(_, _) => 10
    case Pinging => 12
    case Disconnecting => 14
  }

  predicate Reserved(p: ClientPacket) {
    p.PubReleased? || p.Subscribing? || p.Unsubscribing?
  }

  /** The first bytes that announce a packet: of its type, with the flags where the source looks at them. */
  predicate Announces(first: byte, p: ClientPacket) {
    && first / 16 == TypeOf(p)
    && (Reserved(p) ==> first % 16 == 2)
    && (p.Publishing? ==>
          && p.flags.dup <= 1 && p.flags.qos <= 2
          && first % 16 == p.flags.dup * 8 + p.flags.qos * 2 + if p.flags.retain then 1 else 0)
  }

  predicate Whole(body: Bytes, n: nat, p: ClientPacket, rest: Bytes) {
    n <= |body| && body[..n] == Body(p) && rest == body[n..]
  }

  predicate TwoBytes(body: Bytes, p: ClientPacket, rest: Bytes) {
    |body| >= 2 && body[..2] == Body(p) && rest == body[2..]
  }

  /** The source takes `p` from the bytes after a header that announces `n` of them, and leaves `rest`. What stands
      behind the fields of a CONNECT is dropped; PUBREL, PINGREQ and DISCONNECT do not look at `n`. */
  predicate Holds(body: Bytes, n: nat, p: ClientPacket, rest: Bytes) {
    match p
    case Connecting(options, _, fields) =>
      C.ValidFlags(options) && C.Acceptable(options, fields) && n <= |body| && Body(p) <= body[..n] && rest == body[n..]
    case Publishing(topic, _, _, _) => ValidTopicName(topic) && |topic| < 65536 && Whole(body, n, p, rest)
    case PubAcked(_) => n == 2 && TwoBytes(body, p, rest)
    case PubReceived(_) => n == 2 && TwoBytes(body, p, rest)
    case PubReleased(_) => TwoBytes(body, p, rest)
    case PubCompleted(_) => n == 2 && TwoBytes(body, p, rest)
    case Subscribing(_, filters) => filters != [] && X.SubSerializable(filters) && Whole(body, n, p, rest)
    case Unsubscribing(_, names) => X.UnsubSerializable(names) && |X.UnsubPayload(names)| >= 3 && Whole(body, n, p, rest)
    case Pinging => rest == body
    case Disconnecting => rest == body
  }

  /** The stream starts with `p`, as far as the source looks, and goes on with `rest`. */
  predicate StartsWith(stream: Bytes, p: ClientPacket, rest: Bytes) {
    match HeaderOf(stream)
    case None => false
    case Some(h) => Announces(h.first, p) && Decoded(h.remLen).Ok? && Decoded(h.remLen).value >= 0 && Holds(h.body, Decoded(h.remLen).value, p, rest)
  }

  /** Of the packets as they stand on the wire, those are exactly the well-formed ones, and then nothing of what
      follows is touched. */
  lemma SendableIff(p: ClientPacket, tail: Bytes)
    ensures StartsWith(PacketBytes(p) + tail, p, tail) <==> Sendable(p)
  {
    if Sendable(p) {
      SendableStarts(p, tail);
    } else if StartsWith(PacketBytes(p) + tail, p, tail) {
      if |Body(p)| < LIMIT {
        HeldIsSendable(p, tail);
      } else {
        LongIsRefused(p, tail);
      }
    }
  }

  lemma SendableStarts(p: ClientPacket, tail: Bytes)
    requires Sendable(p)
    ensures StartsWith(PacketBytes(p) + tail, p, tail)
  {
    HeaderArrives(p, tail);
    FirstAnnounces(p);
    SendableHolds(p, tail);
    hide Sendable, HeaderOf, Decoded, Announces, Holds, PacketBytes;
  }

  lemma HeldIsSendable(p: ClientPacket, tail: Bytes)
    requires |Body(p)| < LIMIT && StartsWith(PacketBytes(p) + tail, p, tail)
    ensures Sendable(p)
  {
    hide HeaderOf, Body, Decoded, First, C.Acceptable, C.ValidFlags, X.SubSerializable, X.UnsubSerializable, X.UnsubPayload, ValidTopicName;
    LengthArrives(First(p), |Body(p)|, Body(p) + tail);
    assert PacketBytes(p) + tail == [First(p)] + Length(|Body(p)|) + (Body(p) + tail);
    hide Length, PacketBytes;
  }

  lemma LongIsRefused(p: ClientPacket, tail: Bytes)
    requires |Body(p)| >= LIMIT
    ensures !StartsWith(PacketBytes(p) + tail, p, tail)
  {
    hide HeaderOf, Body, Decoded, Holds, Announces;
    var n := |Body(p)|;
    HeaderOfPacket(First(p), n, Body(p) + tail);
    DecodeRefusesFour(n, []);
    assert Encoded(n) + [] == Encoded(n);
    assert PacketBytes(p) + tail == [First(p)] + Encoded(n) + (Body(p) + tail);
  }

  lemma FirstAnnounces(p: ClientPacket)
    requires Sendable(p)
    ensures Announces(First(p), p)
  {
    hide Body, X.SubPayload, X.UnsubPayload;
    if p.Publishing? {
      P.FlagBits(p.flags.dup, p.flags.qos, C.Bit(p.flags.retain));
      P.PublishFlagsIff(First(p), p.flags);
      hide P.Bits, P.ExtractPublishFlags, P.FixedFirst;
    }
  }

  lemma SendableHolds(p: ClientPacket, tail: Bytes)
    requires Sendable(p)
    ensures Holds(Body(p) + tail, |Body(p)|, p, tail)
  {
    var body := Body(p) + tail;
    assert body[..|Body(p)|] == Body(p) && body[|Body(p)|..] == tail;
    if !p.PubAcked? && !p.PubReceived? && !p.PubReleased? && !p.PubCompleted? {
      hide Body;
    }
  }

  /** Nothing else is taken: no other type of packet; no PUBREL, SUBSCRIBE or UNSUBSCRIBE without flags 0010, and no
      PUBLISH of QoS 3. */
  lemma FirstBytes(stream: Bytes, p: ClientPacket, rest: Bytes)
    requires StartsWith(stream, p, rest)
    ensures stream != []
    ensures var b := stream[0]; b / 16 in {1, 3, 4, 5, 6, 7, 8, 10, 12, 14} && (b / 16 in {6, 8, 10} ==> b % 16 == 2) && (b / 16 == 3 ==> b / 2 % 4 != 3)
  {
    hide Holds, Decoded;
  }

  /** And no CONNECT without the protocol name and level 4, with the lowest flag set, with a will of QoS 3, or
      without a client id unless the session is clean. */
  lemma ConnectNeeds(stream: Bytes, p: ClientPacket, rest: Bytes)
    requires StartsWith(stream, p, rest) && p.Connecting?
    ensures var body := HeaderOf(stream).value.body;
            && |body| >= 12 && body[..7] == [0, 4, 77, 81, 84, 84, 4]
            && body[7] % 2 == 0 && body[7] / 8 % 4 != 3
            && (body[10..12] == [0, 0] ==> body[7] / 2 % 2 == 1)
  {
    var body, n := HeaderOf(stream).value.body, Decoded(HeaderOf(stream).value.remLen).value;
    ConnectBody(body, n, p, rest);
    C.FlagsRoundTrip(body[7], p.options);
    FlagsOfByte(body[7], p.options);
    ClientIDBytes(p.options, body[10..n], p.fields);
    hide StartsWith, Holds, C.Candidate, C.ExtractConnectFlags, C.FlagsByte, C.ValidFlags, C.Acceptable;
    assert body[10..12] == body[10..n][..2];
  }

  lemma FlagsOfByte(b: byte, f: C.ConnectFlags)
    requires f.willQos <= 2 && b as int == C.FlagsByte(f)
    ensures b % 2 == 0 && b / 8 % 4 == f.willQos && (b / 2 % 2 == 1 <==> f.cleanSession)
  {
  }

  lemma ClientIDBytes(flags: C.ConnectFlags, payload: Bytes, f: C.Fields)
    requires C.Candidate(flags, payload, f)
    ensures |payload| >= 2 && (payload[..2] == [0, 0] ==> flags.cleanSession)
  {
    C.ReadsClientID(flags, payload, f);
    C.CandidateParts(flags, payload, f);
    hide C.Serialized, C.WillBytes, C.Maybe;
  }

  lemma ReservedIff(b: byte)
    ensures P.ParseFirstByte(b).0 == b / 16 && (P.ParseFirstByte(b).1 == "0010" <==> b % 16 == 2)
  {
    hide P.Bits;
    P.LowBits(b);
    P.LowNibble(b);
  }

  /** The same as the switch sees it. */
  predicate Headed(t: byte, bits: string, p: ClientPacket)
    requires |bits| == 4
  {
    && t == TypeOf(p)
    && (Reserved(p) ==> bits == "0010")
    && (p.Publishing? ==> P.ExtractPublishFlags(bits) == Ok(p.flags))
  }

  lemma HeadedIff(first: byte, p: ClientPacket)
    ensures Headed(first / 16, P.ParseFirstByte(first).1, p) <==> Announces(first, p)
  {
    ReservedIff(first);
    if p.Publishing? {
      P.PublishFlagsIff(first, p.flags);
    }
    hide P.ParseFirstByte, P.ExtractPublishFlags;
  }

  // ---------- reading ----------

  lemma ParsedFits(bits: string, rem: Bytes)
    requires |bits| == 4 && |rem| < LIMIT && P.ExtractPublishFlags(bits).Ok?
    ensures var r := P.ParsePublishBody(P.ExtractPublishFlags(bits).value, rem);
            r.Publish? ==> Fits(r.topic, r.payload, r.flags.qos)
  {
  }

  /** client.go:374-424. A slice out of range is recovered from by closing, like a malformed packet. */
  method ReadPublish(k: ConnRef, bits: string, body: Bytes, remLen: nat) returns (e: Event, rest: Bytes)
    requires |bits| == 4 && remLen < LIMIT
    ensures e.OnPublish? || e == OnError(k)
    ensures EventFits(e) && |rest| <= |body|
    ensures e.OnPublish? ==> exists p: ClientPacket :: p.Publishing? && Headed(3, bits, p) && Holds(body, remLen, p, rest)
    ensures forall p: ClientPacket, r :: p.Publishing? && Headed(3, bits, p) && Holds(body, remLen, p, r) ==> e == EventOf(k, p, "") && rest == r
  {
    hide P.ExtractPublishFlags, P.ParsePublishBody;
    forall p: ClientPacket, r | p.Publishing? && Headed(3, bits, p) && Holds(body, remLen, p, r)
      ensures P.ExtractPublishFlags(bits) == Ok(p.flags) && remLen <= |body| && r == body[remLen..]
      ensures P.ParsePublishBody(p.flags, body[..remLen]) == P.Inbound.Publish(p.topic, p.payload, p.flags, if p.flags.qos > 0 then p.id else 0)
    {
      P.BodyRoundTrip(p.id, p.topic, p.payload, p.flags);
    }
    var flags := P.ExtractPublishFlags(bits);
    if flags == Err || remLen > |body| {
      return OnError(k), [];
    }
    ParsedFits(bits, body[..remLen]);
    match P.ParsePublishBody(flags.value, body[..remLen])
    case Publish(topic, payload, f, id) =>
      PublishHolds(bits, body, remLen, topic, payload, f, id);
      return OnPublish(k, topic, payload, f, id), body[remLen..];
    case _ => return OnError(k), [];
  }

  lemma PublishHolds(bits: string, body: Bytes, n: nat, topic: Bytes, payload: Bytes, f: P.PublishFlags, id: PacketId)
    requires |bits| == 4 && n <= |body| && P.ExtractPublishFlags(bits).Ok?
    requires P.ParsePublishBody(P.ExtractPublishFlags(bits).value, body[..n]) == P.Inbound.Publish(topic, payload, f, id)
    ensures var p := Publishing(topic, payload, f, id); Headed(3, bits, p) && Holds(body, n, p, body[n..])
  {
    P.BodyExactly(f, body[..n], topic, payload, id);
    hide P.ExtractPublishFlags, P.VarHeader;
  }

  /** client.go:175-330. */
  method ReadConnect(k: ConnRef, body: Bytes, remLen: nat, generated: ClientId) returns (e: Event, rest: Bytes)
    ensures e.OnConnect? || e == OnError(k)
    ensures EventFits(e) && |rest| <= |body|
    ensures e.OnConnect? ==> exists p: ClientPacket :: p.Connecting? && Holds(body, remLen, p, rest)
    ensures forall p: ClientPacket, r :: p.Connecting? && Holds(body, remLen, p, r) ==> e == EventOf(k, p, generated) && rest == r
  {
    hide C.Serialized, C.ExtractConnectFlags, C.FlagsByte, C.Acceptable, C.ValidFlags;
    forall p: ClientPacket, r | p.Connecting? && Holds(body, remLen, p, r)
      ensures 10 < remLen <= |body| && body[..7] == PROTOCOL && C.ExtractConnectFlags(body[7]) == Ok(p.options)
      ensures r == body[remLen..] && C.Candidate(p.options, body[10..remLen], p.fields)
    {
      ConnectBody(body, remLen, p, r);
    }
    hide Holds, C.Candidate;
    if remLen <= 10 || |body| < remLen {
      return OnError(k), [];
    }
    if body[..7] != PROTOCOL {
      return OnError(k), [];
    }
    var flags := C.ExtractConnectFlags(body[7]);
    if flags == Err {
      return OnError(k), [];
    }
    var r := C.ParseConnectPayload(flags.value, body[10..remLen]);
    match r
    case Connected(f, _) =>
      WillOfFits(body[7], flags.value, body[10..remLen], f);
      ConnectHolds(body, remLen, flags.value, f);
      e := OnConnect(k, if f.clientID == [] then generated else Text(f.clientID), flags.value.cleanSession, WillOf(flags.value, f.will));
      return e, body[remLen..];
    case _ => return OnError(k), [];
  }

  lemma WillOfFits(b: byte, flags: C.ConnectFlags, payload: Bytes, f: C.Fields)
    requires C.ExtractConnectFlags(b) == Ok(flags) && C.Candidate(flags, payload, f)
    ensures WillFits(WillOf(flags, f.will))
  {
    hide C.BitIsSet, C.Serialized;
  }

  lemma ConnectBody(body: Bytes, n: nat, p: ClientPacket, rest: Bytes)
    requires p.Connecting? && Holds(body, n, p, rest)
    ensures 10 < n <= |body| && body[..7] == PROTOCOL && C.ExtractConnectFlags(body[7]) == Ok(p.options)
    ensures rest == body[n..] && C.Candidate(p.options, body[10..n], p.fields)
  {
    hide C.ExtractConnectFlags;
    assert |C.Serialized(p.fields)| >= 2 by { hide C.Acceptable; }
    hide C.Serialized, C.Acceptable;
    C.FlagsRoundTrip(C.FlagsByte(p.options), p.options);
    var b := body[..n];
    assert b[..|Body(p)|] == Body(p) && body[..7] == b[..7] && body[7] == b[7];
    assert Body(p)[10..] == C.Serialized(p.fields) && body[10..n] == b[10..];
  }

  lemma ConnectHolds(body: Bytes, n: nat, flags: C.ConnectFlags, f: C.Fields)
    requires 10 < n <= |body| && body[..7] == PROTOCOL && C.ExtractConnectFlags(body[7]) == Ok(flags)
    requires C.Candidate(flags, body[10..n], f)
    ensures Holds(body, n, Connecting(flags, P.Uint16(body[8..10]), f), body[n..])
  {
    hide C.ExtractConnectFlags, C.Serialized, C.Acceptable, C.ValidFlags, P.Uint16, Body;
    FieldsInBody(body, n, flags, f);
    C.FlagsRoundTrip(body[7], flags);
    hide C.FlagsByte;
  }

  lemma FieldsInBody(body: Bytes, n: nat, flags: C.ConnectFlags, f: C.Fields)
    requires 10 < n <= |body| && body[..7] == PROTOCOL && C.ExtractConnectFlags(body[7]) == Ok(flags)
    requires C.Serialized(f) <= body[10..n]
    ensures Body(Connecting(flags, P.Uint16(body[8..10]), f)) <= body[..n]
  {
    hide C.ExtractConnectFlags, C.Serialized, C.FlagsByte, C.ValidFlags, P.Uint16Bytes, P.Uint16, Body;
    P.Uint16BytesRoundTrip(body[8..10]);
    C.FlagsRoundTrip(body[7], flags);
    BodyParts(flags, P.Uint16(body[8..10]), f, body[..7], body[7], body[8..10]);
    PrefixHolds(body, n, C.Serialized(f));
  }

  lemma BodyParts(options: C.ConnectFlags, keepAlive: PacketId, f: C.Fields, head: Bytes, flags: byte, seconds: Bytes)
    requires head == PROTOCOL && flags as int == C.FlagsByte(options) && seconds == P.Uint16Bytes(keepAlive)
    ensures Body(Connecting(options, keepAlive, f)) == head + [flags] + seconds + C.Serialized(f)
  {
    hide C.FlagsByte, C.Serialized, P.Uint16Bytes;
  }

  lemma PrefixHolds(body: Bytes, n: nat, s: Bytes)
    requires 10 < n <= |body| && s <= body[10..n]
    ensures body[..7] + [body[7]] + body[8..10] + s <= body[..n]
  {
    assert body[..7] + [body[7]] + body[8..10] == body[..10];
    assert body[..n][..10] == body[..10] && body[..n][10..] == body[10..n];
  }

  /** Two bytes of packet id (client.go:457-551); PUBREL alone does not look at the remaining length. */
  method ReadAck(k: ConnRef, t: byte, body: Bytes, remLen: nat) returns (e: Event, rest: Bytes)
    requires 4 <= t <= 7
    ensures e.OnPubAck? || e.OnPubRec? || e.OnPubRel? || e.OnPubComp? || e.OnError?
    ensures e.conn == k && |rest| <= |body|
    ensures (t != 6 && remLen != 2) || |body| < 2 ==> e.OnError?
    ensures (t == 6 || remLen == 2) && |body| >= 2 ==>
              && rest == body[2..]
              && var id := P.Uint16(body[..2]);
                 e == if t == 4 then OnPubAck(k, id) else if t == 5 then OnPubRec(k, id) else if t == 6 then OnPubRel(k, id) else OnPubComp(k, id)
  {
    if (t != 6 && remLen != 2) || |body| < 2 {
      return OnError(k), [];
    }
    var id := P.Uint16(body[..2]);
    rest := body[2..];
    if t == 4 {
      e := OnPubAck(k, id);
    } else if t == 5 {
      e := OnPubRec(k, id);
    } else if t == 6 {
      e := OnPubRel(k, id);
    } else {
      e := OnPubComp(k, id);
    }
  }

  /** The packet that its two bytes are. */
  function AckOf(t: byte, id: PacketId): ClientPacket
    requires 4 <= t <= 7
  {
    if t == 4 then PubAcked(id) else if t == 5 then PubReceived(id) else if t == 6 then PubReleased(id) else PubCompleted(id)
  }

  lemma AckHolds(t: byte, body: Bytes, n: nat, p: ClientPacket, rest: Bytes)
    requires 4 <= t <= 7 && TypeOf(p) == t
    ensures Holds(body, n, p, rest)
       <==> (t == 6 || n == 2) && |body| >= 2 && p == AckOf(t, P.Uint16(body[..2])) && rest == body[2..]
  {
    if |body| >= 2 {
      P.Uint16BytesRoundTrip(body[..2]);
      P.Uint16RoundTrip(p.id);
    }
    hide P.Uint16, P.Uint16Bytes;
  }

  /** client.go:552-587. */
  method ReadSubscribe(k: ConnRef, body: Bytes, remLen: nat) returns (e: Event, rest: Bytes)
    ensures e.OnSubscribe? || e == OnError(k)
    ensures |rest| <= |body|
    ensures e.OnSubscribe? ==> exists p: ClientPacket :: p.Subscribing? && Holds(body, remLen, p, rest)
    ensures forall p: ClientPacket, r :: p.Subscribing? && Holds(body, remLen, p, r) ==> e == EventOf(k, p, "") && rest == r
  {
    hide X.SubPayload, X.SubSerializable, P.Uint16, P.Uint16Bytes;
    forall p: ClientPacket, r | p.Subscribing? && Holds(body, remLen, p, r)
      ensures 5 <= remLen <= |body| && P.Uint16(body[..2]) == p.id && body[2..remLen] == X.SubPayload(p.filters)
      ensures X.SubSerializable(p.filters) && r == body[remLen..]
    {
      SubscribeBody(body, remLen, p, r);
    }
    hide Holds;
    if remLen < 5 || |body| < remLen {
      return OnError(k), [];
    }
    var r := X.ExtractSubTopicFilters(body[2..remLen]);
    match r
    case Extracted(filters) =>
      SubscribeHolds(body, remLen, filters);
      return OnSubscribe(k, P.Uint16(body[..2]), filters), body[remLen..];
    case _ => return OnError(k), [];
  }

  lemma SubscribeBody(body: Bytes, n: nat, p: ClientPacket, rest: Bytes)
    requires p.Subscribing? && Holds(body, n, p, rest)
    ensures 5 <= n <= |body| && P.Uint16(body[..2]) == p.id && body[2..n] == X.SubPayload(p.filters)
    ensures X.SubSerializable(p.filters) && rest == body[n..]
  {
    P.Uint16RoundTrip(p.id);
    assert |X.SubPayload(p.filters)| >= 3;
    hide X.SubPayload;
    assert body[..2] == body[..n][..2] == P.Uint16Bytes(p.id) && body[2..n] == body[..n][2..];
  }

  lemma SubscribeHolds(body: Bytes, n: nat, filters: seq<P.FilterQos>)
    requires 5 <= n <= |body| && body[2..n] == X.SubPayload(filters) && X.SubSerializable(filters)
    ensures Holds(body, n, Subscribing(P.Uint16(body[..2]), filters), body[n..])
  {
    P.Uint16BytesRoundTrip(body[..2]);
    hide X.SubSerializable, P.Uint16, P.Uint16Bytes;
    assert body[..n] == body[..2] + body[2..n];
  }

  /** client.go:604-635. */
  method ReadUnsubscribe(k: ConnRef, body: Bytes, remLen: nat) returns (e: Event, rest: Bytes)
    ensures e.OnUnsubscribe? || e == OnError(k)
    ensures |rest| <= |body|
    ensures e.OnUnsubscribe? ==> exists p: ClientPacket :: p.Unsubscribing? && Holds(body, remLen, p, rest)
    ensures forall p: ClientPacket, r :: p.Unsubscribing? && Holds(body, remLen, p, r) ==> e == EventOf(k, p, "") && rest == r
  {
    hide X.UnsubPayload, X.UnsubSerializable, P.Uint16, P.Uint16Bytes;
    forall p: ClientPacket, r | p.Unsubscribing? && Holds(body, remLen, p, r)
      ensures 5 <= remLen <= |body| && P.Uint16(body[..2]) == p.id && body[2..remLen] == X.UnsubPayload(p.names)
      ensures X.UnsubSerializable(p.names) && r == body[remLen..]
    {
      P.Uint16RoundTrip(p.id);
      assert body[..2] == body[..remLen][..2] == P.Uint16Bytes(p.id) && body[2..remLen] == body[..remLen][2..];
    }
    hide Holds;
    if remLen < 5 || |body| < remLen {
      return OnError(k), [];
    }
    var r := X.ExtractUnsubTopicFilters(body[2..remLen]);
    match r
    case Extracted(names) =>
      UnsubscribeHolds(body, remLen, names);
      return OnUnsubscribe(k, P.Uint16(body[..2]), names), body[remLen..];
    case _ => return OnError(k), [];
  }

  lemma UnsubscribeHolds(body: Bytes, n: nat, names: seq<Bytes>)
    requires 5 <= n <= |body| && body[2..n] == X.UnsubPayload(names) && X.UnsubSerializable(names)
    ensures Holds(body, n, Unsubscribing(P.Uint16(body[..2]), names), body[n..])
  {
    P.Uint16BytesRoundTrip(body[..2]);
    hide X.UnsubPayload, X.UnsubSerializable, P.Uint16, P.Uint16Bytes;
    assert body[..n] == body[..2] + body[2..n];
  }

  lemma BareHolds(body: Bytes, n: nat)
    ensures forall r :: (Holds(body, n, Pinging, r) <==> r == body) && (Holds(body, n, Disconnecting, r) <==> r == body)
  {
  }

  /** The switch on the packet type (client.go:174-660). */
  method ReadPacket(k: ConnRef, t: byte, bits: string, body: Bytes, remLen: nat, generated: ClientId) returns (e: Event, rest: Bytes)
    requires |bits| == 4 && remLen < LIMIT
    ensures !e.Accept? && !e.OnTick? && e.conn == k && |rest| <= |body| && EventFits(e)
    ensures !e.OnError? ==> exists p :: Headed(t, bits, p) && Holds(body, remLen, p, rest)
    ensures forall p, r :: Headed(t, bits, p) && Holds(body, remLen, p, r) ==> e == EventOf(k, p, generated) && rest == r
  {
    hide P.ExtractPublishFlags, P.Uint16, Holds;
    if t == 1 {
      e, rest := ReadConnect(k, body, remLen, generated);
    } else if t == 3 {
      e, rest := ReadPublish(k, bits, body, remLen);
    } else if 4 <= t <= 7 && (t == 6 ==> bits == "0010") {
      e, rest := ReadAck(k, t, body, remLen);
      forall p, r | Headed(t, bits, p)
        ensures Holds(body, remLen, p, r) <==> (t == 6 || remLen == 2) && |body| >= 2 && p == AckOf(t, P.Uint16(body[..2])) && r == body[2..]
      {
        AckHolds(t, body, remLen, p, r);
      }
      assert !e.OnError? ==> Headed(t, bits, AckOf(t, P.Uint16(body[..2])));
    } else if t == 8 && bits == "0010" {
      e, rest := ReadSubscribe(k, body, remLen);
    } else if t == 10 && bits == "0010" {
      e, rest := ReadUnsubscribe(k, body, remLen);
    } else if t == 12 {
      e, rest := OnPingReq(k), body;
      BareHolds(body, remLen);
      assert Headed(t, bits, Pinging);
    } else if t == 14 {
      e, rest := OnDisconnect(k), body;
      BareHolds(body, remLen);
      assert Headed(t, bits, Disconnecting);
    } else {
      e, rest := OnError(k), [];
    }
  }

  lemma ShorterBody(stream: Bytes)
    ensures HeaderOf(stream).Some? ==> |HeaderOf(stream).value.body| < |stream|
  {
  }

  /** One pass of the loop: the packet that the bytes start with is taken, its meaning is the event, and the bytes
      after it are left. Everything else closes the connection. */
  method Listen(k: ConnRef, stream: Bytes, generated: ClientId) returns (e: Event, rest: Bytes)
    ensures !e.Accept? && !e.OnTick? && e.conn == k && EventFits(e)
    ensures e.OnError? || |rest| < |stream|
    ensures !e.OnError? ==> exists p :: StartsWith(stream, p, rest)
    ensures forall p, r :: StartsWith(stream, p, r) ==> e == EventOf(k, p, generated) && rest == r
  {
    hide HeaderOf, P.ParseFirstByte, Holds, Headed, Announces, LengthBytes, Decoded;
    var h := ReadHeader(stream);
    if h.None? {
      return OnError(k), [];
    }
    ShorterBody(stream);
    var (t, bits) := P.ParseFirstByte(h.value.first);
    var decoded := Decode(h.value.remLen);
    if decoded == Err || decoded.value < 0 {
      return OnError(k), [];
    }
    DecodedFits(h.value.remLen);
    var remLen: nat := decoded.value;
    ReservedIff(h.value.first);
    forall p ensures Headed(t, bits, p) <==> Announces(h.value.first, p) {
      HeadedIff(h.value.first, p);
    }
    e, rest := ReadPacket(k, t, bits, h.value.body, remLen, generated);
    if !e.OnError? {
      ghost var p :| Headed(t, bits, p) && Holds(h.value.body, remLen, p, rest);
      assert StartsWith(stream, p, rest);
    }
  }
}

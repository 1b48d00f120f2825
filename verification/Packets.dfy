/** PUBLISH and SUBACK as packets.go builds them, and PUBLISH as client.go and extractors.go take it apart. */
module Packets {
  import opened Base
  import opened Filters
  import opened Encoding
  import opened Sequencer

  const TYPE_PUBLISH: byte := 3
  const TYPE_SUBACK: byte := 9
  const SUBACK_REM_LEN := 2
  const SUBACK_FAILURE_CODE: byte := 128

  /** binary.BigEndian.PutUint16 of a length cut to 16 bits. */
  function Uint16Bytes(n: nat): (b: Bytes)
    ensures |b| == 2
  {
    [n / 256 % 256, n % 256]
  }

  /** binary.BigEndian.Uint16 */
  function Uint16(b: Bytes): (n: PacketId)
    requires |b| == 2
  {
    (b[0] as int) * 256 + b[1] as int
  }

  /** The high byte goes first. */
  lemma BigEndian(hi: byte, lo: byte)
    ensures Uint16([hi, lo]) == (hi as int) * 256 + lo as int
    ensures Uint16Bytes((hi as int) * 256 + lo as int) == [hi, lo]
  {
  }

  lemma Uint16RoundTrip(n: nat)
    requires n < 65536
    ensures Uint16(Uint16Bytes(n)) == n
  {
  }

  lemma Uint16BytesRoundTrip(b: Bytes)
    requires |b| == 2
    ensures Uint16Bytes(Uint16(b)) == b
  {
  }

  // ---------- building ----------

  function FixedFirst(dup: byte, qos: byte, retain: byte): byte {
    (TYPE_PUBLISH * 16 + dup * 8 + qos * 2 + retain) % 256
  }

  function VarHeader(id: PacketId, topic: Bytes, qos: byte): Bytes {
    Uint16Bytes(|topic|) + topic + if qos > 0 then Uint16Bytes(id) else []
  }

  /** A PUBLISH packet; a packet of QoS 0 is never marked as a duplicate. */
  function PublishPacket(id: PacketId, topic: Bytes, payload: Bytes, dup: byte, qos: byte, retain: byte): Bytes {
    var h := VarHeader(id, topic, qos);
    [FixedFirst(if qos == 0 then 0 else dup, qos, retain)] + Encoded(|h| + |payload|) + h + payload
  }

  /** packets.go:61: an identifier is drawn only for QoS above 0. */
  method MakePublishPacket(seqr: Sequence, topic: Bytes, payload: Bytes, dupFlag: byte, qos: byte, retainFlag: byte)
    returns (packet: Bytes, id: PacketId)
    requires seqr.Valid()
    modifies seqr
    ensures seqr.Valid() && seqr.calls == old(seqr.calls) + if qos > 0 then 1 else 0
    ensures id == if qos > 0 then IdOfCall(old(seqr.calls)) else 0
    ensures packet == PublishPacket(id, topic, payload, dupFlag, qos, retainFlag)
  {
    id := 0;
    if qos > 0 {
      id := seqr.Next();
    }
    packet := MakePublishPacketWithID(id, topic, payload, dupFlag, qos, retainFlag);
  }

  /** packets.go:90. */
  method MakePublishPacketWithID(id: PacketId, topic: Bytes, payload: Bytes, dupFlag: byte, qos: byte, retainFlag: byte)
    returns (packet: Bytes)
    ensures packet == PublishPacket(id, topic, payload, dupFlag, qos, retainFlag)
  {
    var dup := if qos == 0 then 0 else dupFlag;
    var fixedHeader := [FixedFirst(dup, qos, retainFlag)];
    var varHeader := Uint16Bytes(|topic|) + topic;
    if qos >= 1 {
      varHeader := varHeader + [0, 0];
      varHeader := varHeader[..|varHeader| - 2] + Uint16Bytes(id);
    }
    assert varHeader == VarHeader(id, topic, qos);
    var remLen := Encode(|varHeader| + |payload|);
    packet := fixedHeader + remLen + varHeader + payload;
  }

  // ---------- taking apart ----------

  /** The lowest `n` bits of `b`, highest first, as fmt's "%08b" prints them. */
  function Bits(b: byte, n: nat): (s: string)
    ensures |s| == n
  {
    if n == 0 then "" else Bits(b / 2, n - 1) + [if b % 2 == 1 then '1' else '0']
  }

  /** extractors.go:141: packet type and flag bits. */
  function ParseFirstByte(b: byte): (r: (byte, string))
    ensures |r.1| == 4
  {
    (b / 16, Bits(b, 8)[4..])
  }

  datatype PublishFlags = PublishFlags(dup: byte, qos: byte, retain: bool)

  /** extractors.go:49. */
  function ExtractPublishFlags(bits: string): Result<PublishFlags>
    requires |bits| == 4
  {
    if bits[1..3] != "00" && bits[1..3] != "01" && bits[1..3] != "10" then Err
    else if bits[3..] != "0" && bits[3..] != "1" then Err
    else if bits[0..1] != "0" && bits[0..1] != "1" then Err
    else
      Ok(PublishFlags(if bits[0..1] == "0" then 0 else 1,
                      if bits[1..3] == "00" then 0 else if bits[1..3] == "01" then 1 else 2,
                      bits[3..] == "1"))
  }

  /** What the PUBLISH branch makes of the packet: a Publish, a closed connection, or a Go panic,
      which closes the connection too. */
  datatype Inbound = Publish(topic: Bytes, payload: Bytes, flags: PublishFlags, id: PacketId) | Closed | Panicked

  /** client.go:390-424, on the remaining bytes. */
  function ParsePublishBody(flags: PublishFlags, rem: Bytes): Inbound {
    if |rem| < 2 then Panicked
    else
      var topicLen := Uint16(rem[..2]);
      if topicLen == 0 || |rem| < 2 + topicLen then Closed
      else
        var topicEnd := 2 + topicLen;
        var topic := rem[2..topicEnd];
        if !ValidTopicName(topic) then Closed
        else if flags.qos == 0 then Publish(topic, rem[topicEnd..], flags, 0)
        else if |rem| < topicEnd + 2 then Panicked
        else Publish(topic, rem[topicEnd + 2..], flags, Uint16(rem[topicEnd..topicEnd + 2]))
  }

  /** The bytes of one packet and what follows it; the type of a PUBLISH is 3. */
  function ParsePublish(stream: Bytes): (Inbound, Bytes) {
    match HeaderOf(stream)
    case None => (Closed, [])
    case Some(h) =>
      var (t, bits) := ParseFirstByte(h.first);
      if t != TYPE_PUBLISH then (Closed, [])
      else
        match Decoded(h.remLen)
        case Err => (Closed, [])
        case Ok(n) =>
          match ExtractPublishFlags(bits)
          case Err => (Closed, [])
          case Ok(flags) =>
            if n < 0 || |h.body| < n then (Closed, []) else (ParsePublishBody(flags, h.body[..n]), h.body[n..])
  }

  function Digit(n: nat): char {
    if n % 2 == 1 then '1' else '0'
  }

  /** The flag bits are the four lowest, highest first. */
  lemma LowBits(b: byte)
    ensures ParseFirstByte(b).1 == [Digit(b / 8), Digit(b / 4), Digit(b / 2), Digit(b)]
  {
    BitAt(b, 8, 4);
    BitAt(b, 8, 5);
    BitAt(b, 8, 6);
    BitAt(b, 8, 7);
    LowShifts(b);
    hide Bits, Shift;
    assert Bits(b, 8)[4..] == [Bits(b, 8)[4], Bits(b, 8)[5], Bits(b, 8)[6], Bits(b, 8)[7]];
  }

  lemma LowShifts(b: byte)
    ensures Shift(b, 0) == b && Shift(b, 1) == b / 2 && Shift(b, 2) == b / 4 && Shift(b, 3) == b / 8
  {
    assert Shift(b, 2) == Shift(b / 2, 1) == b / 2 / 2;
    assert Shift(b, 3) == Shift(b / 2, 2) == Shift(b / 2 / 2, 1) == b / 2 / 2 / 2;
  }

  /** Flags written and read, digit by digit. */
  lemma FlagDigits(dup: byte, qos: byte, retain: byte)
    requires dup <= 1 && qos <= 2 && retain <= 1
    ensures var b := FixedFirst(dup, qos, retain);
            && b / 16 == TYPE_PUBLISH && Digit(b / 8) == Digit(dup) && Digit(b / 4) == Digit(qos / 2)
            && Digit(b / 2) == Digit(qos) && Digit(b) == Digit(retain)
  {
    assert FixedFirst(dup, qos, retain) == 48 + dup * 8 + qos * 2 + retain;
  }

  lemma FlagBits(dup: byte, qos: byte, retain: byte)
    requires dup <= 1 && qos <= 2 && retain <= 1
    ensures ParseFirstByte(FixedFirst(dup, qos, retain)).0 == TYPE_PUBLISH
    ensures ExtractPublishFlags(ParseFirstByte(FixedFirst(dup, qos, retain)).1) == Ok(PublishFlags(dup, qos, retain == 1))
  {
    LowBits(FixedFirst(dup, qos, retain));
    FlagDigits(dup, qos, retain);
    hide FixedFirst, Bits;
    var bits := ParseFirstByte(FixedFirst(dup, qos, retain)).1;
    assert bits[3..] == [Digit(retain)] && bits[0..1] == [Digit(dup)] && bits[1..3] == [Digit(qos / 2), Digit(qos)];
  }

  lemma LowNibble(b: byte)
    ensures b % 16 == (b / 8 % 2) * 8 + (b / 4 % 2) * 4 + (b / 2 % 2) * 2 + b % 2
  {
    var n: int := b as int;
    var c, d, e, f := n / 2, n / 4, n / 8, n / 16;
    assert c == 2 * d + c % 2;
    assert d == 2 * e + d % 2;
    assert e == 2 * f + e % 2;
  }

  function FlagText(w: nat, x: nat, y: nat, z: nat): string {
    [Digit(w), Digit(x), Digit(y), Digit(z)]
  }

  lemma FlagsOfText(w: nat, x: nat, y: nat, z: nat, f: PublishFlags)
    requires w <= 1 && x <= 1 && y <= 1 && z <= 1
    ensures ExtractPublishFlags(FlagText(w, x, y, z)) == Ok(f)
       <==> f.dup == w && f.qos == 2 * x + y && f.qos <= 2 && (f.retain <==> z == 1)
  {
    var bits := FlagText(w, x, y, z);
    assert bits[0..1] == [Digit(w)] && bits[1..3] == [Digit(x), Digit(y)] && bits[3..] == [Digit(z)];
  }

  lemma NibbleIsUnique(w: nat, x: nat, y: nat, z: nat, f: PublishFlags)
    requires w <= 1 && x <= 1 && y <= 1 && z <= 1 && f.dup <= 1 && f.qos <= 2
    ensures w * 8 + x * 4 + y * 2 + z == f.dup * 8 + f.qos * 2 + (if f.retain then 1 else 0)
       <==> f.dup == w && f.qos == 2 * x + y && (f.retain <==> z == 1)
  {
  }

  /** The flags of a first byte are read exactly when it is one that MQTT allows for a PUBLISH, and then right:
      a QoS of 3 is refused (section 3.3.1.2 of MQTT 3.1.1). */
  lemma PublishFlagsIff(b: byte, f: PublishFlags)
    ensures ExtractPublishFlags(ParseFirstByte(b).1) == Ok(f)
       <==> f.dup <= 1 && f.qos <= 2 && b % 16 == f.dup * 8 + f.qos * 2 + if f.retain then 1 else 0
  {
    LowBits(b);
    LowNibble(b);
    var w, x, y, z := b / 8 % 2, b / 4 % 2, b / 2 % 2, b % 2;
    SameDigits(b);
    FlagsOfText(w, x, y, z, f);
    if f.dup <= 1 && f.qos <= 2 {
      NibbleIsUnique(w, x, y, z, f);
    }
    hide ExtractPublishFlags, ParseFirstByte, Digit;
  }

  lemma SameDigits(b: byte)
    ensures [Digit(b / 8), Digit(b / 4), Digit(b / 2), Digit(b)] == FlagText(b / 8 % 2, b / 4 % 2, b / 2 % 2, b % 2)
  {
  }

  function Shift(b: byte, n: nat): byte {
    if n == 0 then b else Shift(b / 2, n - 1)
  }

  lemma {:induction false} BitAt(b: byte, n: nat, i: nat)
    requires i < n
    ensures Bits(b, n)[i] == if Shift(b, n - 1 - i) % 2 == 1 then '1' else '0'
  {
    if i < n - 1 {
      BitAt(b / 2, n - 1, i);
    }
  }

  lemma BodyRoundTrip(id: PacketId, topic: Bytes, payload: Bytes, flags: PublishFlags)
    requires ValidTopicName(topic) && |topic| < 65536
    ensures ParsePublishBody(flags, VarHeader(id, topic, flags.qos) + payload)
            == Publish(topic, payload, flags, if flags.qos > 0 then id else 0)
  {
    var rem := VarHeader(id, topic, flags.qos) + payload;
    Uint16RoundTrip(|topic|);
    Uint16RoundTrip(id);
    var k := 2 + |topic|;
    assert rem[..2] == Uint16Bytes(|topic|);
    assert rem[2..k] == topic;
    if flags.qos > 0 {
      assert rem[k..k + 2] == Uint16Bytes(id);
      assert rem[k + 2..] == payload;
    } else {
      assert rem[k..] == payload;
    }
  }

  /** The remaining bytes are let through exactly when they are the fields of a PUBLISH with a valid topic name. */
  lemma BodyExactly(flags: PublishFlags, rem: Bytes, topic: Bytes, payload: Bytes, id: PacketId)
    ensures ParsePublishBody(flags, rem) == Publish(topic, payload, flags, id)
       <==> ValidTopicName(topic) && |topic| < 65536 && (flags.qos == 0 ==> id == 0)
            && rem == VarHeader(id, topic, flags.qos) + payload
  {
    if ValidTopicName(topic) && |topic| < 65536 && (flags.qos == 0 ==> id == 0) && rem == VarHeader(id, topic, flags.qos) + payload {
      BodyRoundTrip(id, topic, payload, flags);
    }
    if ParsePublishBody(flags, rem) == Publish(topic, payload, flags, id) {
      BodyIsWhole(flags, rem);
    }
    hide ParsePublishBody, VarHeader;
  }

  lemma BodyIsWhole(flags: PublishFlags, rem: Bytes)
    requires ParsePublishBody(flags, rem).Publish?
    ensures var r := ParsePublishBody(flags, rem);
            && r.flags == flags && ValidTopicName(r.topic) && |r.topic| < 65536 && (flags.qos == 0 ==> r.id == 0)
            && rem == VarHeader(r.id, r.topic, flags.qos) + r.payload
  {
    var r := ParsePublishBody(flags, rem);
    var k := 2 + |r.topic|;
    assert r.topic == rem[2..k] && |r.topic| == Uint16(rem[..2]);
    assert r.payload == if flags.qos == 0 then rem[k..] else rem[k + 2..];
    assert flags.qos > 0 ==> r.id == Uint16(rem[k..k + 2]);
    hide ParsePublishBody, Uint16Bytes, ValidTopicName;
    Uint16BytesRoundTrip(rem[..2]);
    hide Uint16;
    if flags.qos > 0 {
      Uint16BytesRoundTrip(rem[k..k + 2]);
      assert rem == rem[..2] + rem[2..k] + rem[k..k + 2] + rem[k + 2..];
    } else {
      assert rem == rem[..2] + rem[2..k] + [] + rem[k..];
    }
  }

  /** A packet that is built is read back field by field, and what follows it is left alone, exactly
      when its remaining length fits in three bytes; a longer one closes the connection. */
  lemma PublishRoundTrip(id: PacketId, topic: Bytes, payload: Bytes, dup: byte, qos: byte, retain: byte, rest: Bytes)
    requires ValidTopicName(topic) && |topic| < 65536
    requires dup <= 1 && qos <= 2 && retain <= 1
    ensures ParsePublish(PublishPacket(id, topic, payload, dup, qos, retain) + rest) ==
            if |VarHeader(id, topic, qos)| + |payload| < LIMIT
            then (Publish(topic, payload, PublishFlags(if qos == 0 then 0 else dup, qos, retain == 1), if qos > 0 then id else 0), rest)
            else (Closed, [])
  {
    var h := VarHeader(id, topic, qos);
    var d := if qos == 0 then 0 else dup;
    var n := |h| + |payload|;
    var stream := PublishPacket(id, topic, payload, dup, qos, retain) + rest;
    var body := h + payload + rest;
    assert stream == [FixedFirst(d, qos, retain)] + Encoded(n) + body;
    HeaderOfPacket(FixedFirst(d, qos, retain), n, body);
    FlagBits(d, qos, retain);
    assert Encoded(n) + [] == Encoded(n);
    if n < LIMIT {
      DecodeUndoesEncode(n, []);
      assert body[..n] == h + payload && body[n..] == rest;
      BodyRoundTrip(id, topic, payload, PublishFlags(d, qos, retain == 1));
    } else {
      DecodeRefusesFour(n, []);
    }
  }

  /** PUBLISH packets, byte by byte: "m" to "a/b" at QoS 0 with RETAIN, and at QoS 1 as a duplicate under 0x0102. */
  lemma PublishBytes()
    ensures PublishPacket(0, [97, 47, 98], [109], 0, 0, 1) == [0x31, 6, 0, 3, 97, 47, 98, 109]
    ensures PublishPacket(0x0102, [97, 47, 98], [109], 1, 1, 0) == [0x3A, 8, 0, 3, 97, 47, 98, 1, 2, 109]
  {
    assert Encoded(6) == [6] && Encoded(8) == [8];
  }

  // ---------- SUBACK ----------

  datatype FilterQos = FilterQos(filter: Bytes, qos: byte)

  /** One code per filter, in order: the QoS asked for, or the failure code. */
  function SubackCode(f: FilterQos): byte {
    if ValidFilterName(f.filter) then f.qos else SUBACK_FAILURE_CODE
  }

  /** 0x80 refuses a filter; any other code grants the QoS that was asked for (section 3.9.3 of MQTT 3.1.1). */
  lemma SubackCodes(f: FilterQos)
    ensures SubackCode(f) == if ValidFilterName(f.filter) then f.qos else 0x80
  {
  }

  /** packets.go:31. */
  method MakeSubAckPacket(id: Bytes, filterList: seq<FilterQos>) returns (packet: Bytes)
    ensures packet == [TYPE_SUBACK * 16] + Encoded(SUBACK_REM_LEN + |filterList|) + id
                      + seq(|filterList|, i requires 0 <= i < |filterList| => SubackCode(filterList[i]))
  {
    packet := [TYPE_SUBACK * 16];
    var remLen := Encode(SUBACK_REM_LEN + |filterList|);
    packet := packet + remLen + id;
    ghost var head := packet;
    for n := 0 to |filterList|
      invariant packet == head + seq(n, i requires 0 <= i < n => SubackCode(filterList[i]))
    {
      var valid := ValidFilter(filterList[n].filter);
      if valid {
        packet := packet + [filterList[n].qos];
      } else {
        packet := packet + [SUBACK_FAILURE_CODE];
      }
      assert seq(n + 1, i requires 0 <= i < n + 1 => SubackCode(filterList[i]))
          == seq(n, i requires 0 <= i < n => SubackCode(filterList[i])) + [SubackCode(filterList[n])];
    }
  }

  /** Its remaining length is that of the identifier and the codes. */
  lemma SubackLength(id: Bytes, codes: Bytes)
    requires |id| == 2 && SUBACK_REM_LEN + |codes| < LIMIT
    ensures var packet := [TYPE_SUBACK * 16] + Encoded(SUBACK_REM_LEN + |codes|) + id + codes;
            && HeaderOf(packet).Some?
            && Decoded(HeaderOf(packet).value.remLen) == Ok(|HeaderOf(packet).value.body|)
            && HeaderOf(packet).value.body == id + codes
  {
    var n := SUBACK_REM_LEN + |codes|;
    assert [TYPE_SUBACK * 16] + Encoded(n) + id + codes == [TYPE_SUBACK * 16] + Encoded(n) + (id + codes);
    HeaderOfPacket(TYPE_SUBACK * 16, n, id + codes);
    DecodeUndoesEncode(n, []);
    assert Encoded(n) + [] == Encoded(n);
  }
}

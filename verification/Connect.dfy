/** The flags and the payload of CONNECT: extractors.go:11 and client.go:230-330. */
module Connect {
  import opened Base
  import opened Packets

  datatype ConnectFlags = ConnectFlags(cleanSession: bool, willFlag: bool, willRetain: bool,
                                       passwordFlag: bool, userNameFlag: bool, willQos: byte)

  // ---------- flags ----------

  /** bytes/binary.go:13. */
  predicate BitIsSet(b: byte, bit: nat) {
    Shift(b, bit) % 2 == 1
  }

  /** extractors.go:11. */
  function ExtractConnectFlags(b: byte): Result<ConnectFlags> {
    var willFlag := BitIsSet(b, 2);
    var willRetain := BitIsSet(b, 5);
    var willQos := if BitIsSet(b, 3) then 1 else if BitIsSet(b, 4) then 2 else 0;
    if BitIsSet(b, 0) then Err
    else if BitIsSet(b, 3) && BitIsSet(b, 4) then Err
    else if !willFlag && willQos != 0 then Err
    else if !willFlag && willRetain then Err
    else Ok(ConnectFlags(BitIsSet(b, 1), willFlag, willRetain, BitIsSet(b, 6), BitIsSet(b, 7), willQos))
  }

  function Bit(x: bool): byte {
    if x then 1 else 0
  }

  /** Section 3.1.2.3 of MQTT 3.1.1. */
  function FlagsByte(f: ConnectFlags): int {
    Bit(f.cleanSession) * 2 + Bit(f.willFlag) * 4 + f.willQos * 8 + Bit(f.willRetain) * 32
    + Bit(f.passwordFlag) * 64 + Bit(f.userNameFlag) * 128
  }

  /** A will QoS of at most 2, and no will QoS and no will retain without a will. */
  predicate ValidFlags(f: ConnectFlags) {
    f.willQos <= 2 && (!f.willFlag ==> f.willQos == 0 && !f.willRetain)
  }

  lemma {:induction false} ShiftStep(b: byte, n: nat)
    ensures Shift(b, n + 1) == Shift(b, n) / 2
  {
    if n > 0 {
      ShiftStep(b / 2, n - 1);
    }
  }

  lemma BitOfShift(b: byte, n: nat)
    ensures Shift(b, n) == 2 * Shift(b, n + 1) + Bit(BitIsSet(b, n))
  {
    ShiftStep(b, n);
  }

  lemma BitsOfByte(b: byte)
    ensures b as int == Bit(BitIsSet(b, 0)) + Bit(BitIsSet(b, 1)) * 2 + Bit(BitIsSet(b, 2)) * 4 + Bit(BitIsSet(b, 3)) * 8
               + Bit(BitIsSet(b, 4)) * 16 + Bit(BitIsSet(b, 5)) * 32 + Bit(BitIsSet(b, 6)) * 64 + Bit(BitIsSet(b, 7)) * 128
  {
    assert Shift(b, 0) == b;
    hide Shift, BitIsSet, Bit;
    BitOfShift(b, 0);
    BitOfShift(b, 1);
    BitOfShift(b, 2);
    BitOfShift(b, 3);
    BitOfShift(b, 4);
    BitOfShift(b, 5);
    BitOfShift(b, 6);
    BitOfShift(b, 7);
  }

  /** A number below 256 has one way of being written in bits. */
  lemma BitsAreUnique(x: seq<byte>, y: seq<byte>)
    requires |x| == |y| && (forall i :: 0 <= i < |x| ==> x[i] <= 1 && y[i] <= 1)
    requires Weighted(x) == Weighted(y)
    ensures x == y
  {
    if x != [] {
      assert x[0] == Weighted(x) % 2 && y[0] == Weighted(y) % 2;
      BitsAreUnique(x[1..], y[1..]);
      assert x == [x[0]] + x[1..] && y == [y[0]] + y[1..];
    }
  }

  function Weighted(x: seq<byte>): nat {
    if x == [] then 0 else x[0] + 2 * Weighted(x[1..])
  }

  lemma WeightedByte(x: seq<byte>)
    requires |x| == 8
    ensures Weighted(x) == x[0] + (x[1] as int) * 2 + (x[2] as int) * 4 + (x[3] as int) * 8 + (x[4] as int) * 16
                           + (x[5] as int) * 32 + (x[6] as int) * 64 + (x[7] as int) * 128
  {
    WeightedStep(x, 0);
    WeightedStep(x, 1);
    WeightedStep(x, 2);
    WeightedStep(x, 3);
    WeightedStep(x, 4);
    WeightedStep(x, 5);
    WeightedStep(x, 6);
    WeightedStep(x, 7);
    assert x[0..] == x;
  }

  lemma WeightedStep(x: seq<byte>, i: nat)
    requires i < |x|
    ensures Weighted(x[i..]) == x[i] + 2 * Weighted(x[i + 1..])
    ensures Weighted(x[|x|..]) == 0
  {
    assert x[i..][1..] == x[i + 1..];
  }

  function BitsOf(b: byte): (x: seq<byte>)
    ensures |x| == 8 && forall i :: 0 <= i < 8 ==> x[i] <= 1
  {
    [Bit(BitIsSet(b, 0)), Bit(BitIsSet(b, 1)), Bit(BitIsSet(b, 2)), Bit(BitIsSet(b, 3)),
     Bit(BitIsSet(b, 4)), Bit(BitIsSet(b, 5)), Bit(BitIsSet(b, 6)), Bit(BitIsSet(b, 7))]
  }

  function FlagBits(f: ConnectFlags): (x: seq<byte>)
    ensures |x| == 8 && forall i :: 0 <= i < 8 ==> x[i] <= 1
  {
    [0, Bit(f.cleanSession), Bit(f.willFlag), Bit(f.willQos == 1), Bit(f.willQos == 2), Bit(f.willRetain),
     Bit(f.passwordFlag), Bit(f.userNameFlag)]
  }

  lemma FlagsByteIsWeighted(f: ConnectFlags)
    requires f.willQos <= 2
    ensures FlagsByte(f) == Weighted(FlagBits(f))
  {
    WeightedByte(FlagBits(f));
    assert Bit(f.willQos == 1) as int * 8 + Bit(f.willQos == 2) as int * 16 == f.willQos as int * 8;
    hide Bit;
  }

  lemma ByteIsWeighted(b: byte)
    ensures b as int == Weighted(BitsOf(b))
  {
    hide Shift, BitIsSet;
    BitsOfByte(b);
    WeightedByte(BitsOf(b));
  }

  /** A byte is the flag byte of valid flags exactly when its bits are theirs. */
  lemma FlagsByBits(b: byte, f: ConnectFlags)
    requires f.willQos <= 2
    ensures b as int == FlagsByte(f) <==> BitsOf(b) == FlagBits(f)
  {
    ByteIsWeighted(b);
    FlagsByteIsWeighted(f);
    hide FlagsByte, BitsOf, FlagBits, Weighted;
    if b as int == FlagsByte(f) {
      BitsAreUnique(BitsOf(b), FlagBits(f));
    }
  }

  /** The extractor accepts exactly the flag bytes that MQTT allows, and reads each of them right. */
  lemma FlagsRoundTrip(b: byte, f: ConnectFlags)
    ensures ExtractConnectFlags(b) == Ok(f) <==> ValidFlags(f) && b as int == FlagsByte(f)
  {
    hide Shift, BitIsSet, FlagsByte;
    if f.willQos <= 2 {
      FlagsByBits(b, f);
      BitsEqual(b, f);
    }
  }

  lemma BitsEqual(b: byte, f: ConnectFlags)
    ensures BitsOf(b) == FlagBits(f) <==>
      && !BitIsSet(b, 0)
      && BitIsSet(b, 1) == f.cleanSession && BitIsSet(b, 2) == f.willFlag
      && BitIsSet(b, 3) == (f.willQos == 1) && BitIsSet(b, 4) == (f.willQos == 2)
      && BitIsSet(b, 5) == f.willRetain && BitIsSet(b, 6) == f.passwordFlag && BitIsSet(b, 7) == f.userNameFlag
  {
    hide Shift, BitIsSet;
    var x, y := BitsOf(b), FlagBits(f);
    if x == y {
      assert x[0] == y[0] && x[1] == y[1] && x[2] == y[2] && x[3] == y[3];
      assert x[4] == y[4] && x[5] == y[5] && x[6] == y[6] && x[7] == y[7];
    }
  }

  // ---------- payload ----------

  datatype Will = Will(topic: Bytes, payload: Bytes)

  /** The fields of a CONNECT payload as they stand on the wire. */
  datatype Fields = Fields(clientID: Bytes, will: Option<Will>, username: Option<Bytes>, password: Option<Bytes>)

  function Prefixed(s: Bytes): Bytes {
    Uint16Bytes(|s|) + s
  }

  function Maybe(s: Option<Bytes>): Bytes {
    if s.Some? then Prefixed(s.value) else []
  }

  function WillBytes(w: Option<Will>): Bytes {
    if w.Some? then Prefixed(w.value.topic) + Prefixed(w.value.payload) else []
  }

  /** Section 3.1.3 of MQTT 3.1.1. */
  function Serialized(f: Fields): Bytes {
    Prefixed(f.clientID) + WillBytes(f.will) + Maybe(f.username) + Maybe(f.password)
  }

  predicate Short(s: Bytes) {
    0 < |s| < 65536
  }

  /** What the broker takes under these flags: every field non-empty, except a client id with a clean session. */
  predicate Acceptable(flags: ConnectFlags, f: Fields) {
    && |f.clientID| < 65536 && (f.clientID == [] ==> flags.cleanSession)
    && (f.will.Some? <==> flags.willFlag)
    && (f.will.Some? ==> Short(f.will.value.topic) && Short(f.will.value.payload))
    && (f.username.Some? <==> flags.userNameFlag)
    && (f.username.Some? ==> Short(f.username.value))
    && (f.password.Some? <==> flags.passwordFlag)
    && (f.password.Some? ==> Short(f.password.value))
  }

  /** A length-prefixed field at `head`; TooShort when the payload ends inside it. */
  datatype Taken = Field(s: Bytes) | Empty | TooShort

  function Take(payload: Bytes, head: nat): Taken {
    if |payload| < head + 2 then TooShort
    else
      var n := Uint16(payload[head..head + 2]);
      if n == 0 then Empty
      else if |payload| < head + 2 + n then TooShort
      else Field(payload[head + 2..head + 2 + n])
  }

  /** Refused closes the connection with an error, Panicked through a slice out of range. */
  datatype Outcome = Connected(fields: Fields, head: nat) | Refused | Panicked

  predicate Candidate(flags: ConnectFlags, payload: Bytes, f: Fields) {
    Acceptable(flags, f) && Serialized(f) <= payload
  }

  lemma TakePrefixed(payload: Bytes, head: nat, s: Bytes)
    requires |s| < 65536 && head <= |payload| && Prefixed(s) <= payload[head..]
    ensures Take(payload, head) == if s == [] then Empty else Field(s)
  {
    Uint16RoundTrip(|s|);
    var tail := payload[head..];
    assert tail[..2 + |s|] == Prefixed(s);
    assert payload[head..head + 2] == tail[..2 + |s|][..2] == Uint16Bytes(|s|);
    assert s == tail[..2 + |s|][2..] == payload[head + 2..head + 2 + |s|];
  }

  lemma TakenIsPrefixed(payload: Bytes, head: nat)
    requires head + 2 <= |payload| && !Take(payload, head).TooShort?
    ensures var s := if Take(payload, head).Empty? then [] else Take(payload, head).s;
            |s| < 65536 && head + 2 + |s| <= |payload| && payload[head..head + 2 + |s|] == Prefixed(s)
  {
    Uint16BytesRoundTrip(payload[head..head + 2]);
    if Take(payload, head).Empty? {
      assert payload[head..head + 2] == Prefixed([]);
    }
  }

  lemma PrefixThen(s: Bytes, at: nat, x: Bytes, y: Bytes)
    requires at <= |s| && x + y <= s[at..]
    ensures x <= s[at..] && at + |x| <= |s| && y <= s[at + |x|..]
  {
    var tail := s[at..];
    assert x == (x + y)[..|x|] == tail[..|x + y|][..|x|] == tail[..|x|];
    assert y == (x + y)[|x|..] == tail[..|x + y|][|x|..];
    assert s[at + |x|..] == tail[|x|..];
  }

  /** Where the parts of a candidate lie. */
  lemma CandidateParts(flags: ConnectFlags, payload: Bytes, f: Fields)
    requires Candidate(flags, payload, f)
    ensures var a := |Prefixed(f.clientID)|;
            var b := a + |WillBytes(f.will)|;
            var c := b + |Maybe(f.username)|;
            && c + |Maybe(f.password)| <= |payload|
            && Prefixed(f.clientID) <= payload
            && WillBytes(f.will) <= payload[a..]
            && Maybe(f.username) <= payload[b..]
            && Maybe(f.password) <= payload[c..]
  {
    hide Prefixed, WillBytes, Maybe, Acceptable;
    var p, w, u, q := Prefixed(f.clientID), WillBytes(f.will), Maybe(f.username), Maybe(f.password);
    assert Serialized(f) == p + (w + (u + q)) && payload[0..] == payload;
    PrefixThen(payload, 0, p, w + (u + q));
    PrefixThen(payload, |p|, w, u + q);
    PrefixThen(payload, |p| + |w|, u, q);
  }

  lemma ReadsClientID(flags: ConnectFlags, payload: Bytes, f: Fields)
    requires Candidate(flags, payload, f)
    ensures Take(payload, 0) == if f.clientID == [] then Empty else Field(f.clientID)
    ensures Acceptable(flags, f)
  {
    CandidateParts(flags, payload, f);
    assert payload[0..] == payload;
    TakePrefixed(payload, 0, f.clientID);
  }

  lemma ReadsWill(flags: ConnectFlags, payload: Bytes, f: Fields)
    requires Candidate(flags, payload, f) && flags.willFlag
    ensures f.will.Some?
    ensures var a := 2 + |f.clientID|;
            && Take(payload, a) == Field(f.will.value.topic)
            && Take(payload, a + 2 + |f.will.value.topic|) == Field(f.will.value.payload)
  {
    WillPresent(flags, payload, f);
    CandidateParts(flags, payload, f);
    PrefixedLength(f.clientID);
    PrefixedLength(f.will.value.topic);
    hide Prefixed, Candidate, Take;
    var a := 2 + |f.clientID|;
    PrefixThen(payload, a, Prefixed(f.will.value.topic), Prefixed(f.will.value.payload));
    TakePrefixed(payload, a, f.will.value.topic);
    TakePrefixed(payload, a + 2 + |f.will.value.topic|, f.will.value.payload);
  }

  lemma WillPresent(flags: ConnectFlags, payload: Bytes, f: Fields)
    requires Candidate(flags, payload, f) && flags.willFlag
    ensures f.will.Some? && Short(f.will.value.topic) && Short(f.will.value.payload)
  {
    hide Serialized;
  }

  lemma PrefixedLength(s: Bytes)
    ensures |Prefixed(s)| == 2 + |s|
  {
  }

  lemma ReadsUsername(flags: ConnectFlags, payload: Bytes, f: Fields)
    requires Candidate(flags, payload, f) && flags.userNameFlag
    ensures f.username.Some? && Take(payload, 2 + |f.clientID| + |WillBytes(f.will)|) == Field(f.username.value)
  {
    CandidateParts(flags, payload, f);
    TakePrefixed(payload, 2 + |f.clientID| + |WillBytes(f.will)|, f.username.value);
  }

  lemma ReadsPassword(flags: ConnectFlags, payload: Bytes, f: Fields)
    requires Candidate(flags, payload, f) && flags.passwordFlag
    ensures f.password.Some?
    ensures Take(payload, 2 + |f.clientID| + |WillBytes(f.will)| + |Maybe(f.username)|) == Field(f.password.value)
  {
    CandidateParts(flags, payload, f);
    TakePrefixed(payload, 2 + |f.clientID| + |WillBytes(f.will)| + |Maybe(f.username)|, f.password.value);
  }

  lemma Absent(flags: ConnectFlags, payload: Bytes, f: Fields)
    requires Candidate(flags, payload, f)
    ensures f.will.Some? <==> flags.willFlag
    ensures f.username.Some? <==> flags.userNameFlag
    ensures f.password.Some? <==> flags.passwordFlag
  {
  }

  /** client.go:253-282: the two fields of the will, whose slices are not checked. */
  method ParseWill(willFlag: bool, payload: Bytes, start: nat) returns (r: Outcome, will: Option<Will>, head: nat)
    requires start <= |payload|
    ensures !willFlag ==> r.Connected? && will == None
    ensures willFlag && r.Connected? ==>
      && will.Some? && Short(will.value.topic) && Short(will.value.payload)
      && Take(payload, start) == Field(will.value.topic)
      && Take(payload, start + 2 + |will.value.topic|) == Field(will.value.payload)
    ensures willFlag && !r.Connected? ==>
      Take(payload, start).Field? ==> !Take(payload, start + 2 + |Take(payload, start).s|).Field?
    ensures r.Connected? ==> start <= head <= |payload| && payload[start..head] == WillBytes(will)
  {
    will := None;
    head := start;
    r := Connected(Fields([], None, None, None), 0);
    if willFlag {
      match Take(payload, head) {
        case Empty => r := Refused;
        case TooShort => r := Outcome.Panicked;
        case Field(topic) =>
          TakenIsPrefixed(payload, head);
          head := head + 2 + |topic|;
          match Take(payload, head) {
            case Empty => r := Refused;
            case TooShort => r := Outcome.Panicked;
            case Field(message) =>
              TakenIsPrefixed(payload, head);
              will := Some(Will(topic, message));
              assert payload[start..head + 2 + |message|] == payload[start..head] + payload[head..head + 2 + |message|];
              head := head + 2 + |message|;
          }
      }
    }
  }

  /** client.go:284-306 and client.go:308-330: a user name or a password, with checked slices. */
  method ParseOptional(flag: bool, payload: Bytes, start: nat) returns (ok: bool, field: Option<Bytes>, head: nat)
    requires start <= |payload|
    ensures !flag ==> ok && field == None
    ensures flag ==> (ok <==> Take(payload, start).Field?)
    ensures flag && ok ==> field.Some? && Short(field.value) && Take(payload, start) == Field(field.value)
    ensures ok ==> start <= head <= |payload| && payload[start..head] == Maybe(field)
  {
    head := start;
    field := None;
    ok := true;
    if flag {
      match Take(payload, head) {
        case Field(s) =>
          TakenIsPrefixed(payload, head);
          field := Some(s);
          head := head + 2 + |s|;
        case _ => ok := false;
      }
    }
  }

  lemma Glue(payload: Bytes, a: nat, b: nat, c: nat, d: nat)
    requires a <= b <= c <= d <= |payload|
    ensures payload[..d] == payload[..a] + payload[a..b] + payload[b..c] + payload[c..d]
  {
  }

  /** client.go:230-330, on the payload that has been read. */
  method ParseConnectPayload(flags: ConnectFlags, payload: Bytes) returns (r: Outcome)
    ensures r.Connected? ==> Candidate(flags, payload, r.fields) && r.head == |Serialized(r.fields)|
    ensures forall f :: Candidate(flags, payload, f) ==> r == Connected(f, |Serialized(f)|)
  {
    hide Candidate, Serialized, Take, WillBytes, Maybe;
    forall f | Candidate(flags, payload, f)
      ensures Acceptable(flags, f) && Take(payload, 0) == if f.clientID == [] then Empty else Field(f.clientID)
    {
      ReadsClientID(flags, payload, f);
    }
    if |payload| < 2 {
      NeedsTwoBytes(payload);
      return Outcome.Panicked;
    }
    var clientID: Bytes := [];
    match Take(payload, 0) {
      case Empty =>
        if !flags.cleanSession {
          return Refused;
        }
      case TooShort => return Refused;
      case Field(s) => clientID := s;
    }
    NotEmpty(payload, 0);
    TakenIsPrefixed(payload, 0);
    var head := 2 + |clientID|;
    ghost var h1 := head;
    var result, will, username, password, ok;
    result, will, head := ParseWill(flags.willFlag, payload, head);
    forall f | Candidate(flags, payload, f) ensures result.Connected? && f.clientID == clientID && f.will == will {
      Absent(flags, payload, f);
      if flags.willFlag {
        ReadsWill(flags, payload, f);
      }
    }
    if !result.Connected? {
      return result;
    }
    ghost var h2 := head;
    ok, username, head := ParseOptional(flags.userNameFlag, payload, head);
    forall f | Candidate(flags, payload, f) ensures ok && f.username == username {
      Absent(flags, payload, f);
      if flags.userNameFlag {
        ReadsUsername(flags, payload, f);
      }
    }
    if !ok {
      return Refused;
    }
    ghost var h3 := head;
    ok, password, head := ParseOptional(flags.passwordFlag, payload, head);
    forall f | Candidate(flags, payload, f) ensures ok && f.password == password {
      Absent(flags, payload, f);
      if flags.passwordFlag {
        ReadsPassword(flags, payload, f);
      }
    }
    if !ok {
      return Refused;
    }
    Glue(payload, h1, h2, h3, head);
    Complete(flags, payload, Fields(clientID, will, username, password), head);
    return Connected(Fields(clientID, will, username, password), head);
  }

  lemma NeedsTwoBytes(payload: Bytes)
    requires |payload| < 2
    ensures Take(payload, 0).TooShort?
  {
  }

  lemma NotEmpty(payload: Bytes, head: nat)
    ensures Take(payload, head).Field? ==> Short(Take(payload, head).s)
  {
  }

  lemma Complete(flags: ConnectFlags, payload: Bytes, f: Fields, head: nat)
    requires Acceptable(flags, f) && head <= |payload|
    requires payload[..head] == Prefixed(f.clientID) + WillBytes(f.will) + Maybe(f.username) + Maybe(f.password)
    ensures Candidate(flags, payload, f) && head == |Serialized(f)|
  {
    assert payload[..head] == Serialized(f);
  }

  /** Serialised fields are recovered exactly, with the head at the end of the payload. */
  method ConnectRoundTrip(flags: ConnectFlags, f: Fields) returns (r: Outcome)
    requires Acceptable(flags, f)
    ensures r == Connected(f, |Serialized(f)|)
  {
    r := ParseConnectPayload(flags, Serialized(f));
    assert Candidate(flags, Serialized(f), f);
  }
}

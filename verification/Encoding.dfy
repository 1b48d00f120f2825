/** Remaining Length (section 2.2.3 of MQTT 3.1.1), bytes/encoding.go, and the header split of client.go. */
module Encoding {
  import opened Base

  /** Lengths from here on take a fourth byte, which Decode refuses. */
  const LIMIT := 128 * 128 * 128

  function Encoded(x: int): (e: Bytes) {
    if x <= 0 then []
    else if x < 128 then [x]
    else [x % 128 + 128] + Encoded(x / 128)
  }

  /** The lengths at which the encoding grows (table 2.4 of MQTT 3.1.1), and one between. */
  lemma EncodedLengths()
    ensures Encoded(127) == [0x7F] && Encoded(128) == [0x80, 0x01] && Encoded(321) == [0xC1, 0x02]
    ensures Encoded(16383) == [0xFF, 0x7F] && Encoded(16384) == [0x80, 0x80, 0x01] && Encoded(2097151) == [0xFF, 0xFF, 0x7F]
  {
    assert Encoded(1) == [1] && Encoded(2) == [2] && Encoded(16384 / 128) == Encoded(128) && Encoded(16383 / 128) == Encoded(127);
    assert Encoded(2097151 / 128) == Encoded(16383);
  }

  /** bytes/encoding.go:8. */
  method Encode(n: int) returns (encoded: Bytes)
    ensures encoded == Encoded(n)
  {
    var x := n;
    encoded := [];
    while x > 0
      invariant encoded + Encoded(x) == Encoded(n)
      decreases x
    {
      var enc := x % 128;
      x := x / 128;
      if x > 0 {
        enc := enc + 128;
      }
      encoded := encoded + [enc];
    }
  }

  function DecodedFrom(stream: Bytes, mult: nat, value: int): Result<int>
    decreases |stream|
  {
    if stream == [] then Ok(value)
    else
      var v := value + stream[0] % 128 * mult;
      if mult * 128 > LIMIT then Err
      else if stream[0] < 128 then Ok(v)
      else DecodedFrom(stream[1..], mult * 128, v)
  }

  function Decoded(stream: Bytes): Result<int> {
    DecodedFrom(stream, 1, 0)
  }

  /** bytes/encoding.go:22. */
  method Decode(stream: Bytes) returns (r: Result<int>)
    ensures r == Decoded(stream)
  {
    var mult: nat := 1;
    var value := 0;
    for n := 0 to |stream|
      invariant DecodedFrom(stream[n..], mult, value) == Decoded(stream)
    {
      var encodedByte := stream[n];
      assert stream[n..][1..] == stream[n + 1..];
      value := value + encodedByte % 128 * mult;
      mult := mult * 128;
      if mult > LIMIT {
        return Err;
      }
      if encodedByte < 128 {
        break;
      }
    }
    return Ok(value);
  }

  // ---------- round trip ----------

  lemma {:induction false} DecodedFromFits(stream: Bytes, mult: nat, value: int)
    requires mult == 1 || mult == 128 || mult == 128 * 128 || mult == LIMIT
    requires 0 <= value < mult
    ensures DecodedFrom(stream, mult, value).Ok? ==> 0 <= DecodedFrom(stream, mult, value).value < LIMIT
    decreases |stream|
  {
    if stream != [] && mult != LIMIT {
      var d: int := stream[0] % 128;
      assert 0 <= d * mult <= 127 * mult;
      if stream[0] >= 128 {
        DecodedFromFits(stream[1..], mult * 128, value + d * mult);
      }
    }
  }

  /** What is accepted has at most three bytes' worth. */
  lemma DecodedFits(stream: Bytes)
    ensures Decoded(stream).Ok? ==> 0 <= Decoded(stream).value < LIMIT
  {
    if stream != [] {
      DecodedFromFits(stream, 1, 0);
    }
  }

  lemma DecodeMore(b: byte, rest: Bytes, mult: nat, value: int)
    requires b >= 128 && mult * 128 <= LIMIT
    ensures DecodedFrom([b] + rest, mult, value) == DecodedFrom(rest, mult * 128, value + b % 128 * mult)
  {
    assert ([b] + rest)[1..] == rest;
  }

  lemma DecodeLast(b: byte, rest: Bytes, mult: nat, value: int)
    requires b < 128 && mult * 128 <= LIMIT
    ensures DecodedFrom([b] + rest, mult, value) == Ok(value + b * mult)
  {
  }

  lemma EncodedMore(x: int, rest: Bytes)
    requires x >= 128
    ensures Encoded(x) + rest == [x % 128 + 128] + (Encoded(x / 128) + rest)
  {
  }

  lemma DecodeOne(x: int, rest: Bytes)
    requires 1 <= x < 128
    ensures Decoded(Encoded(x) + rest) == Ok(x)
  {
    DecodeLast(x, rest, 1, 0);
  }

  lemma DecodeTwo(x: int, rest: Bytes)
    requires 128 <= x < 128 * 128
    ensures Decoded(Encoded(x) + rest) == Ok(x)
  {
    hide DecodedFrom;
    EncodedMore(x, rest);
    DecodeMore(x % 128 + 128, Encoded(x / 128) + rest, 1, 0);
    DecodeLast(x / 128, rest, 128, x % 128);
  }

  lemma ThreeBytes(a: byte, b: byte, c: byte, rest: Bytes)
    requires a < 128 && b < 128 && c < 128
    ensures Decoded([a + 128] + ([b + 128] + ([c] + rest))) == Ok(a + b * 128 + c * (128 * 128))
  {
    hide DecodedFrom;
    DecodeMore(a + 128, [b + 128] + ([c] + rest), 1, 0);
    DecodeMore(b + 128, [c] + rest, 128, a);
    DecodeLast(c, rest, 128 * 128, a + b * 128);
  }

  lemma DecodeThree(x: int, rest: Bytes)
    requires 128 * 128 <= x < LIMIT
    ensures Decoded(Encoded(x) + rest) == Ok(x)
  {
    hide Decoded, Encoded;
    var y := x / 128;
    ThreeDigits(x);
    LastByte(y / 128);
    EncodedMore(x, rest);
    EncodedMore(y, rest);
    ThreeBytes(x % 128, y % 128, y / 128, rest);
  }

  lemma ThreeDigits(x: int)
    requires 0 <= x
    ensures x % 128 + x / 128 % 128 * 128 + x / 128 / 128 * (128 * 128) == x
  {
    var y := x / 128;
    assert x == y * 128 + x % 128 && y == y / 128 * 128 + y % 128;
  }

  lemma LastByte(x: int)
    requires 1 <= x < 128
    ensures Encoded(x) == [x]
  {
  }

  lemma DecodeRefusesFour(x: int, rest: Bytes)
    requires LIMIT <= x
    ensures Decoded(Encoded(x) + rest) == Err
  {
    var y := x / 128;
    var z := y / 128;
    SomeByte(z / 128, rest);
    NoFourth(Encoded(z / 128) + rest, x % 128 + y % 128 * 128 + z % 128 * (128 * 128));
    hide DecodedFrom, Encoded;
    EncodedMore(x, rest);
    EncodedMore(y, rest);
    EncodedMore(z, rest);
    DecodeMore(x % 128 + 128, Encoded(y) + rest, 1, 0);
    DecodeMore(y % 128 + 128, Encoded(z) + rest, 128, x % 128);
    DecodeMore(z % 128 + 128, Encoded(z / 128) + rest, 128 * 128, x % 128 + y % 128 * 128);
  }

  lemma SomeByte(x: int, rest: Bytes)
    requires x > 0
    ensures Encoded(x) + rest != []
  {
  }

  lemma NoFourth(stream: Bytes, value: int)
    requires stream != []
    ensures DecodedFrom(stream, LIMIT, value) == Err
  {
  }

  lemma DecodeUndoesEncode(x: int, rest: Bytes)
    requires 1 <= x < LIMIT
    ensures Decoded(Encoded(x) + rest) == Ok(x)
  {
    if x < 128 {
      DecodeOne(x, rest);
    } else if x < 128 * 128 {
      DecodeTwo(x, rest);
    } else {
      DecodeThree(x, rest);
    }
  }

  /** Decode undoes Encode, whatever follows, exactly for the lengths of one to three bytes. */
  lemma RoundTripIff(x: int)
    ensures (forall rest: Bytes :: Decoded(Encoded(x) + rest) == Ok(x)) <==> 1 <= x < LIMIT
  {
    if 1 <= x < LIMIT {
      forall rest: Bytes ensures Decoded(Encoded(x) + rest) == Ok(x) {
        DecodeUndoesEncode(x, rest);
      }
    } else if x >= LIMIT {
      DecodeRefusesFour(x, []);
      assert Decoded(Encoded(x) + []) != Ok(x);
    } else {
      DecodeOne(1, []);
      assert Encoded(x) + Encoded(1) == Encoded(1) + [];
      assert Decoded(Encoded(x) + Encoded(1)) == Ok(1);
    }
  }

  // ---------- shape ----------

  /** Every byte but the last announces another one, the last does not. */
  predicate Continued(e: Bytes) {
    e != [] && e[|e| - 1] < 128 && forall i :: 0 <= i < |e| - 1 ==> e[i] >= 128
  }

  /** Encodings end where they say they end, and never in a zero byte: no shorter encoding exists. */
  lemma {:induction false} EncodedIsMinimal(x: int)
    requires x > 0
    ensures Continued(Encoded(x)) && Encoded(x)[|Encoded(x)| - 1] > 0
    decreases x
  {
    if x >= 128 {
      EncodedIsMinimal(x / 128);
      var e := Encoded(x / 128);
      assert Encoded(x) == [x % 128 + 128] + e;
      assert forall i :: 1 <= i < |e| ==> Encoded(x)[i] == e[i - 1];
    }
  }

  lemma {:induction false} EncodedInjective(x: int, y: int)
    requires x > 0 && y > 0 && Encoded(x) == Encoded(y)
    ensures x == y
    decreases x
  {
    if x >= 128 && y >= 128 {
      assert Encoded(x)[1..] == Encoded(x / 128) && Encoded(y)[1..] == Encoded(y / 128);
      assert Encoded(x)[0] == x % 128 + 128 && Encoded(y)[0] == y % 128 + 128;
      EncodedInjective(x / 128, y / 128);
    } else {
      assert Encoded(x)[0] == Encoded(y)[0];
    }
  }

  /** No encoding is the beginning of another. */
  lemma EncodedPrefixFree(x: int, y: int)
    requires x > 0 && y > 0 && Encoded(x) <= Encoded(y)
    ensures x == y
  {
    EncodedIsMinimal(x);
    EncodedIsMinimal(y);
    var n := |Encoded(x)|;
    assert Encoded(x)[n - 1] == Encoded(y)[n - 1];
    assert n == |Encoded(y)|;
    assert Encoded(x) == Encoded(y);
    EncodedInjective(x, y);
  }

  // ---------- the fixed header, as client.go reads it ----------

  datatype Header = Header(first: byte, remLen: Bytes, body: Bytes)

  /** The bytes of the length are those up to the first one below 128. */
  function LengthBytes(stream: Bytes): (n: nat)
    ensures n <= |stream|
  {
    if stream == [] then 0 else if stream[0] < 128 then 1 else 1 + LengthBytes(stream[1..])
  }

  function HeaderOf(stream: Bytes): Option<Header> {
    if stream == [] then None
    else if |stream| == 1 then Some(Header(stream[0], [0], []))
    else
      var n := LengthBytes(stream[1..]);
      if stream[n] >= 128 then None else Some(Header(stream[0], stream[1..n + 1], stream[n + 1..]))
  }

  /** Of one byte, the length reads as 0 (client.go:136-139): the array that is read into was made with zeros. */
  lemma LoneByte(b: byte)
    ensures HeaderOf([b]) == Some(Header(b, [0], []))
  {
  }

  /** client.go:133-154; None when the stream ends inside the length. Of two header bytes only one may come:
      the second is then the 0 it was made with. */
  method ReadHeader(stream: Bytes) returns (h: Option<Header>)
    ensures h == HeaderOf(stream)
  {
    if stream == [] {
      return None;
    }
    if |stream| == 1 {
      return Some(Header(stream[0], [0], []));
    }
    var lastByte := stream[1];
    var remLenEncoded := [lastByte];
    var head := 2;
    while lastByte >= 128
      invariant 2 <= head <= |stream| && remLenEncoded == stream[1..head] && lastByte == stream[head - 1]
      invariant LengthBytes(stream[1..]) == head - 2 + LengthBytes(stream[head - 1..])
      decreases |stream| - head
    {
      assert stream[head - 1..][1..] == stream[head..];
      if head == |stream| {
        return None;
      }
      lastByte := stream[head];
      remLenEncoded := remLenEncoded + [lastByte];
      head := head + 1;
    }
    return Some(Header(stream[0], remLenEncoded, stream[head..]));
  }

  lemma {:induction false} LengthBytesOfContinued(e: Bytes, rest: Bytes)
    requires Continued(e)
    ensures LengthBytes(e + rest) == |e|
  {
    if |e| > 1 {
      LengthBytesOfContinued(e[1..], rest);
      assert (e + rest)[1..] == e[1..] + rest;
    }
  }

  /** A packet is split exactly where its encoded length ends. */
  lemma HeaderOfPacket(first: byte, x: int, body: Bytes)
    requires x > 0
    ensures HeaderOf([first] + Encoded(x) + body) == Some(Header(first, Encoded(x), body))
  {
    var e := Encoded(x);
    var s := [first] + e + body;
    EncodedIsMinimal(x);
    LengthBytesOfContinued(e, body);
    assert s[1..] == e + body;
    assert s[|e|] == e[|e| - 1];
    assert s[1..|e| + 1] == e && s[|e| + 1..] == body;
  }
}

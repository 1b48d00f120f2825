/** The payloads of SUBSCRIBE and UNSUBSCRIBE: extractors.go against their serialisation. */
module Extractors {
  import opened Base
  import opened Packets

  /** A list, the error "invalid payload", or a slice out of range, which is a Go panic. */
  datatype Extracted<T> = Extracted(list: seq<T>) | InvalidPayload | OutOfRange

  function Prepend<T>(list: seq<T>, r: Extracted<T>): Extracted<T> {
    if r.Extracted? then Extracted(list + r.list) else r
  }

  lemma PrependTwice<T>(a: seq<T>, b: seq<T>, r: Extracted<T>)
    ensures Prepend(a, Prepend(b, r)) == Prepend(a + b, r)
  {
    assert r.Extracted? ==> a + (b + r.list) == (a + b) + r.list;
  }

  // ---------- SUBSCRIBE ----------

  function SubItem(f: FilterQos): Bytes {
    Uint16Bytes(|f.filter|) + f.filter + [f.qos]
  }

  function SubPayload(list: seq<FilterQos>): Bytes {
    if list == [] then [] else SubItem(list[0]) + SubPayload(list[1..])
  }

  predicate SubSerializable(list: seq<FilterQos>) {
    forall i :: 0 <= i < |list| ==> |list[i].filter| < 65536
  }

  /** The first item of a payload that starts with a whole one. */
  function FirstSubItem(payload: Bytes): Option<FilterQos> {
    if |payload| < 2 || |payload| < Uint16(payload[..2]) + 3 then None
    else
      var n := Uint16(payload[..2]);
      Some(FilterQos(payload[2..2 + n], payload[2 + n]))
  }

  function SubItems(payload: Bytes): Extracted<FilterQos>
    decreases |payload|
  {
    if payload == [] then Extracted([])
    else
      match FirstSubItem(payload)
      case None => OutOfRange
      case Some(f) => Prepend([f], SubItems(payload[|f.filter| + 3..]))
  }

  /** What lies at `k` decides how the walk goes on. */
  lemma SubItemsStep(payload: Bytes, k: nat)
    requires k < |payload|
    ensures SubItems(payload[k..]) ==
            if |payload| < k + 2 || |payload| < k + Uint16(payload[k..k + 2]) + 3 then OutOfRange
            else
              var n := Uint16(payload[k..k + 2]);
              Prepend([FilterQos(payload[k + 2..k + 2 + n], payload[k + 2 + n])], SubItems(payload[k + n + 3..]))
  {
    var tail := payload[k..];
    if |payload| >= k + 2 {
      var n := Uint16(payload[k..k + 2]);
      assert tail[..2] == payload[k..k + 2];
      if |payload| >= k + n + 3 {
        assert tail[2..2 + n] == payload[k + 2..k + 2 + n];
        assert tail[n + 3..] == payload[k + n + 3..];
      }
    }
  }

  /** extractors.go:91. Its QoS check, below 0 and above 2 at once, never fires. */
  method ExtractSubTopicFilters(payload: Bytes) returns (r: Extracted<FilterQos>)
    ensures forall list :: r == Extracted(list) <==> SubSerializable(list) && SubPayload(list) == payload
    ensures r == OutOfRange <==> !exists list :: SubSerializable(list) && SubPayload(list) == payload
    ensures r != InvalidPayload
  {
    hide SubItems, SubSerializable, SubPayload, Uint16;
    var filterList: seq<FilterQos> := [];
    var parsedBytes := 0;
    NothingSub(payload);
    while parsedBytes < |payload|
      invariant 0 <= parsedBytes <= |payload|
      invariant SubItems(payload) == Prepend(filterList, SubItems(payload[parsedBytes..]))
      decreases |payload| - parsedBytes
    {
      SubItemsStep(payload, parsedBytes);
      var lenBytesEnd := parsedBytes + 2;
      if lenBytesEnd > |payload| {
        SubItemsExactly(payload);
        return OutOfRange;
      }
      var topicLen := Uint16(payload[parsedBytes..lenBytesEnd]);
      var topicNameEnd := lenBytesEnd + topicLen;
      if topicNameEnd + 1 > |payload| {
        SubItemsExactly(payload);
        return OutOfRange;
      }
      var topicFilter := payload[lenBytesEnd..topicNameEnd];
      var qos := payload[topicNameEnd];
      PrependTwice(filterList, [FilterQos(topicFilter, qos)], SubItems(payload[parsedBytes + topicLen + 3..]));
      filterList := filterList + [FilterQos(topicFilter, qos)];
      parsedBytes := parsedBytes + topicLen + 3;
    }
    SubItemsExactly(payload);
    if parsedBytes != |payload| {
      return InvalidPayload;
    }
    assert payload[parsedBytes..] == [];
    return Extracted(filterList);
  }

  lemma NothingSub(payload: Bytes)
    ensures SubItems([]) == Extracted([])
    ensures SubItems(payload) == Prepend([], SubItems(payload[0..]))
  {
    assert payload[0..] == payload;
    assert SubItems(payload).Extracted? ==> [] + SubItems(payload).list == SubItems(payload).list;
  }

  lemma FirstSubOfSerialized(f: FilterQos, rest: Bytes)
    requires |f.filter| < 65536
    ensures FirstSubItem(SubItem(f) + rest) == Some(f) && (SubItem(f) + rest)[|f.filter| + 3..] == rest
  {
    var p := SubItem(f) + rest;
    Uint16RoundTrip(|f.filter|);
    assert p[..2] == Uint16Bytes(|f.filter|);
    assert p[2..2 + |f.filter|] == f.filter;
  }

  lemma FirstSubSerializes(payload: Bytes)
    requires FirstSubItem(payload).Some?
    ensures var f := FirstSubItem(payload).value;
            |f.filter| < 65536 && payload == SubItem(f) + payload[|f.filter| + 3..]
  {
    Uint16BytesRoundTrip(payload[..2]);
  }

  /** Every serialised list parses back to itself. */
  lemma {:induction false} SubItemsOfSerialized(list: seq<FilterQos>)
    requires SubSerializable(list)
    ensures SubItems(SubPayload(list)) == Extracted(list)
    decreases |list|
  {
    if list != [] {
      SubItemsOfSerialized(list[1..]);
      FirstSubOfSerialized(list[0], SubPayload(list[1..]));
      assert list == [list[0]] + list[1..];
    }
  }

  /** Every list that comes out serialises to the whole payload; "invalid payload" never comes out. */
  lemma {:induction false} SubItemsSerialize(payload: Bytes)
    ensures !SubItems(payload).InvalidPayload?
    ensures SubItems(payload).Extracted? ==>
      SubSerializable(SubItems(payload).list) && SubPayload(SubItems(payload).list) == payload
    decreases |payload|
  {
    if payload != [] && FirstSubItem(payload).Some? {
      var f := FirstSubItem(payload).value;
      var rest := payload[|f.filter| + 3..];
      SubItemsSerialize(rest);
      FirstSubSerializes(payload);
      if SubItems(rest).Extracted? {
        assert ([f] + SubItems(rest).list)[1..] == SubItems(rest).list;
      }
    }
  }

  lemma {:induction false} SubItemsExactly(payload: Bytes)
    ensures forall list :: SubItems(payload) == Extracted(list) <==> SubSerializable(list) && SubPayload(list) == payload
    ensures SubItems(payload) == OutOfRange <==> !exists list :: SubSerializable(list) && SubPayload(list) == payload
    ensures SubItems(payload) != InvalidPayload
  {
    SubItemsSerialize(payload);
    forall list | SubSerializable(list) && SubPayload(list) == payload ensures SubItems(payload) == Extracted(list) {
      SubItemsOfSerialized(list);
    }
  }

  // ---------- UNSUBSCRIBE ----------

  function UnsubItem(f: Bytes): Bytes {
    Uint16Bytes(|f|) + f
  }

  function UnsubPayload(list: seq<Bytes>): Bytes {
    if list == [] then [] else UnsubItem(list[0]) + UnsubPayload(list[1..])
  }

  predicate UnsubSerializable(list: seq<Bytes>) {
    forall i :: 0 <= i < |list| ==> |list[i]| < 65536
  }

  /** The first item of a payload that starts with a whole one. */
  function FirstUnsubItem(payload: Bytes): Option<Bytes> {
    if |payload| < 2 || |payload| < Uint16(payload[..2]) + 2 then None
    else
      var n := Uint16(payload[..2]);
      Some(payload[2..2 + n])
  }

  function UnsubItems(payload: Bytes): Extracted<Bytes>
    decreases |payload|
  {
    if payload == [] then Extracted([])
    else
      match FirstUnsubItem(payload)
      case None => OutOfRange
      case Some(f) => Prepend([f], UnsubItems(payload[|f| + 2..]))
  }

  /** What lies at `k` decides how the walk goes on. */
  lemma UnsubItemsStep(payload: Bytes, k: nat)
    requires k < |payload|
    ensures UnsubItems(payload[k..]) ==
            if |payload| < k + 2 || |payload| < k + Uint16(payload[k..k + 2]) + 2 then OutOfRange
            else
              var n := Uint16(payload[k..k + 2]);
              Prepend([payload[k + 2..k + 2 + n]], UnsubItems(payload[k + n + 2..]))
  {
    var tail := payload[k..];
    if |payload| >= k + 2 {
      var n := Uint16(payload[k..k + 2]);
      assert tail[..2] == payload[k..k + 2];
      if |payload| >= k + n + 2 {
        assert tail[2..2 + n] == payload[k + 2..k + 2 + n];
        assert tail[n + 2..] == payload[k + n + 2..];
      }
    }
  }

  /** extractors.go:119. */
  method ExtractUnsubTopicFilters(payload: Bytes) returns (r: Extracted<Bytes>)
    ensures forall list :: r == Extracted(list) <==> UnsubSerializable(list) && UnsubPayload(list) == payload
    ensures r == OutOfRange <==> !exists list :: UnsubSerializable(list) && UnsubPayload(list) == payload
    ensures r != InvalidPayload
  {
    hide UnsubItems, UnsubSerializable, UnsubPayload, Uint16;
    var filterList: seq<Bytes> := [];
    var parsedBytes := 0;
    NothingUnsub(payload);
    while parsedBytes < |payload|
      invariant 0 <= parsedBytes <= |payload|
      invariant UnsubItems(payload) == Prepend(filterList, UnsubItems(payload[parsedBytes..]))
      decreases |payload| - parsedBytes
    {
      UnsubItemsStep(payload, parsedBytes);
      var lenBytesEnd := parsedBytes + 2;
      if lenBytesEnd > |payload| {
        UnsubItemsExactly(payload);
        return OutOfRange;
      }
      var topicLen := Uint16(payload[parsedBytes..lenBytesEnd]);
      if lenBytesEnd + topicLen > |payload| {
        UnsubItemsExactly(payload);
        return OutOfRange;
      }
      var topicFilter := payload[lenBytesEnd..lenBytesEnd + topicLen];
      PrependTwice(filterList, [topicFilter], UnsubItems(payload[parsedBytes + topicLen + 2..]));
      filterList := filterList + [topicFilter];
      parsedBytes := parsedBytes + topicLen + 2;
    }
    UnsubItemsExactly(payload);
    if parsedBytes != |payload| {
      return InvalidPayload;
    }
    assert payload[parsedBytes..] == [];
    return Extracted(filterList);
  }

  lemma NothingUnsub(payload: Bytes)
    ensures UnsubItems([]) == Extracted([])
    ensures UnsubItems(payload) == Prepend([], UnsubItems(payload[0..]))
  {
    assert payload[0..] == payload;
    assert UnsubItems(payload).Extracted? ==> [] + UnsubItems(payload).list == UnsubItems(payload).list;
  }

  lemma FirstUnsubOfSerialized(f: Bytes, rest: Bytes)
    requires |f| < 65536
    ensures FirstUnsubItem(UnsubItem(f) + rest) == Some(f) && (UnsubItem(f) + rest)[|f| + 2..] == rest
  {
    var p := UnsubItem(f) + rest;
    Uint16RoundTrip(|f|);
    assert p[..2] == Uint16Bytes(|f|);
    assert p[2..2 + |f|] == f;
  }

  lemma FirstUnsubSerializes(payload: Bytes)
    requires FirstUnsubItem(payload).Some?
    ensures var f := FirstUnsubItem(payload).value;
            |f| < 65536 && payload == UnsubItem(f) + payload[|f| + 2..]
  {
    Uint16BytesRoundTrip(payload[..2]);
  }

  /** Every serialised list parses back to itself. */
  lemma {:induction false} UnsubItemsOfSerialized(list: seq<Bytes>)
    requires UnsubSerializable(list)
    ensures UnsubItems(UnsubPayload(list)) == Extracted(list)
    decreases |list|
  {
    if list != [] {
      UnsubItemsOfSerialized(list[1..]);
      FirstUnsubOfSerialized(list[0], UnsubPayload(list[1..]));
      assert list == [list[0]] + list[1..];
    }
  }

  /** Every list that comes out serialises to the whole payload; "invalid payload" never comes out. */
  lemma {:induction false} UnsubItemsSerialize(payload: Bytes)
    ensures !UnsubItems(payload).InvalidPayload?
    ensures UnsubItems(payload).Extracted? ==>
      UnsubSerializable(UnsubItems(payload).list) && UnsubPayload(UnsubItems(payload).list) == payload
    decreases |payload|
  {
    if payload != [] && FirstUnsubItem(payload).Some? {
      var f := FirstUnsubItem(payload).value;
      var rest := payload[|f| + 2..];
      UnsubItemsSerialize(rest);
      FirstUnsubSerializes(payload);
      if UnsubItems(rest).Extracted? {
        assert ([f] + UnsubItems(rest).list)[1..] == UnsubItems(rest).list;
      }
    }
  }

  lemma UnsubItemsExactly(payload: Bytes)
    ensures forall list :: UnsubItems(payload) == Extracted(list) <==> UnsubSerializable(list) && UnsubPayload(list) == payload
    ensures UnsubItems(payload) == OutOfRange <==> !exists list :: UnsubSerializable(list) && UnsubPayload(list) == payload
    ensures UnsubItems(payload) != InvalidPayload
  {
    UnsubItemsSerialize(payload);
    forall list | UnsubSerializable(list) && UnsubPayload(list) == payload ensures UnsubItems(payload) == Extracted(list) {
      UnsubItemsOfSerialized(list);
    }
  }
}

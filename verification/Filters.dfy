/** Topic names and topic filters: splitting at '/', and the byte-level validity checks
    of topic_filter.go against their meaning on segments. */
module Filters {
  import opened Base

  // ---------- splitting and joining ----------

  function Split(s: Bytes): (r: Path)
    ensures |r| >= 1
  {
    if s == [] then [[]]
    else
      var r := Split(s[1..]);
      if s[0] == SLASH then [[]] + r else [[s[0]] + r[0]] + r[1..]
  }

  function Join(p: Path): Bytes {
    if p == [] then [] else if |p| == 1 then p[0] else p[0] + [SLASH] + Join(p[1..])
  }

  predicate NoSlash(p: Path) {
    forall i :: 0 <= i < |p| ==> SLASH !in p[i]
  }

  lemma {:induction false} SplitHasNoSlash(s: Bytes)
    ensures NoSlash(Split(s))
  {
    if s != [] {
      SplitHasNoSlash(s[1..]);
    }
  }

  lemma {:induction false} SplitThenJoin(s: Bytes)
    ensures Join(Split(s)) == s
  {
    if s != [] {
      SplitThenJoin(s[1..]);
      var r := Split(s[1..]);
      if s[0] == SLASH {
        assert ([[]] + r)[1..] == r;
        assert s == [SLASH] + s[1..];
      } else {
        assert Split(s)[1..] == r[1..];
        assert s == [s[0]] + s[1..];
      }
    }
  }

  lemma {:induction false} SplitFirst(seg: Segment, rest: Bytes)
    requires SLASH !in seg
    ensures Split(seg) == [seg]
    ensures Split(seg + [SLASH] + rest) == [seg] + Split(rest)
  {
    var s := seg + [SLASH] + rest;
    if seg == [] {
      assert s[1..] == rest;
    } else {
      SplitFirst(seg[1..], rest);
      assert s[1..] == seg[1..] + [SLASH] + rest;
      assert seg == [seg[0]] + seg[1..];
    }
  }

  /** Joining is undone by splitting, so distinct segment paths are distinct strings. */
  lemma {:induction false} JoinThenSplit(p: Path)
    requires p != [] && NoSlash(p)
    ensures Split(Join(p)) == p
  {
    if |p| == 1 {
      SplitFirst(p[0], []);
    } else {
      JoinThenSplit(p[1..]);
      SplitFirst(p[0], Join(p[1..]));
    }
  }

  // ---------- validity, by segments ----------

  /** '#' is only ever the whole last segment, '+' only the first byte of a segment,
      and a first segment that starts with '+' is "+" itself. */
  predicate ValidSegments(p: Path) {
    && (forall i :: 0 <= i < |p| && HASH in p[i] ==> i == |p| - 1 && p[i] == HASH_SEG)
    && (forall i, j :: 0 <= i < |p| && 0 <= j < |p[i]| && p[i][j] == PLUS ==> j == 0)
    && (p != [] && p[0] != [] && p[0][0] == PLUS ==> p[0] == PLUS_SEG)
  }

  predicate ValidFilterName(f: Bytes) {
    f != [] && ValidSegments(Split(f))
  }

  /** Sections 4.7.1.2 and 4.7.1.3 of MQTT 3.1.1: a wildcard occupies a whole level. */
  predicate LegalFilter(p: Path) {
    && (forall i :: 0 <= i < |p| && HASH in p[i] ==> i == |p| - 1 && p[i] == HASH_SEG)
    && (forall i :: 0 <= i < |p| && PLUS in p[i] ==> p[i] == PLUS_SEG)
  }

  predicate TopicSegment(s: Segment) {
    PLUS !in s && HASH !in s
  }

  predicate TopicPath(p: Path) {
    forall i :: 0 <= i < |p| ==> TopicSegment(p[i])
  }

  /** topic_filter.go:400: no wildcard byte and not empty. */
  predicate ValidTopicName(t: Bytes) {
    HASH !in t && PLUS !in t && t != []
  }

  // ---------- the same rules on bytes ----------

  predicate AfterSlash(f: Bytes, i: nat)
    requires i < |f|
  {
    i == 0 || f[i - 1] == SLASH
  }

  predicate HashRule(f: Bytes) {
    forall i :: 0 <= i < |f| && f[i] == HASH ==> i == |f| - 1 && AfterSlash(f, i)
  }

  predicate PlusRule(f: Bytes) {
    forall i :: 0 <= i < |f| && f[i] == PLUS ==> AfterSlash(f, i)
  }

  predicate HeadRule(f: Bytes) {
    |f| > 1 && f[0] == PLUS ==> f[1] == SLASH
  }

  /** Everything before the first '/', or all of it. */
  function FirstSlash(f: Bytes): (k: nat)
    ensures k <= |f|
    ensures forall i :: 0 <= i < k ==> f[i] != SLASH
    ensures k < |f| ==> f[k] == SLASH
  {
    if f == [] || f[0] == SLASH then 0 else 1 + FirstSlash(f[1..])
  }

  lemma {:induction false} RulesBySegment(f: Bytes)
    ensures HashRule(f) <==> forall i :: 0 <= i < |Split(f)| && HASH in Split(f)[i] ==> i == |Split(f)| - 1 && Split(f)[i] == HASH_SEG
    ensures PlusRule(f) <==> forall i, j :: 0 <= i < |Split(f)| && 0 <= j < |Split(f)[i]| && Split(f)[i][j] == PLUS ==> j == 0
    decreases |f|
  {
    var k := FirstSlash(f);
    var seg := f[..k];
    if k == |f| {
      assert f == seg;
      SplitFirst(f, []);
      assert Split(f) == [f];
      assert Split(f)[0] == f;
      SingleSegmentRules(f);
    } else {
      var rest := f[k + 1..];
      assert f == seg + [SLASH] + rest;
      SplitFirst(seg, rest);
      RulesBySegment(rest);
      SplitHashRule(seg, rest);
      SplitPlusRule(seg, rest);
      ConsRules(seg, Split(rest));
      SingleSegmentRules(seg);
    }
  }

  lemma SingleSegmentRules(f: Bytes)
    requires SLASH !in f
    ensures HashRule(f) <==> (HASH in f ==> f == HASH_SEG)
    ensures PlusRule(f) <==> forall j :: 0 <= j < |f| && f[j] == PLUS ==> j == 0
  {
    if HASH in f {
      var i :| 0 <= i < |f| && f[i] == HASH;
    }
  }

  /** The byte rules of `seg/rest` are those of `seg` and of `rest`, except that '#' may not be in `seg`. */
  lemma AcrossSlash(seg: Segment, rest: Bytes)
    requires SLASH !in seg
    ensures var f, n := seg + [SLASH] + rest, |seg| + 1;
            && |f| == n + |rest| && f[|seg|] == SLASH
            && (forall i :: 0 <= i < |seg| ==> f[i] == seg[i] && (AfterSlash(f, i) <==> AfterSlash(seg, i)))
            && (forall i :: 0 <= i < |rest| ==> f[n + i] == rest[i] && (AfterSlash(f, n + i) <==> AfterSlash(rest, i)))
  {
  }

  lemma SplitHashRule(seg: Segment, rest: Bytes)
    requires SLASH !in seg
    ensures HashRule(seg + [SLASH] + rest) <==> HASH !in seg && HashRule(rest)
  {
    hide AfterSlash;
    AcrossSlash(seg, rest);
    var f, n := seg + [SLASH] + rest, |seg| + 1;
    if HashRule(f) {
      forall i | 0 <= i < |seg| ensures seg[i] != HASH {
        assert f[i] == HASH ==> i == |f| - 1;
      }
      forall i | 0 <= i < |rest| && rest[i] == HASH ensures i == |rest| - 1 && AfterSlash(rest, i) {
        assert f[n + i] == HASH;
      }
    }
    if HASH !in seg && HashRule(rest) {
      forall i | 0 <= i < |f| && f[i] == HASH ensures i == |f| - 1 && AfterSlash(f, i) {
        assert i >= n && rest[i - n] == HASH && f[n + (i - n)] == f[i];
      }
    }
  }

  lemma SplitPlusRule(seg: Segment, rest: Bytes)
    requires SLASH !in seg
    ensures PlusRule(seg + [SLASH] + rest) <==> PlusRule(seg) && PlusRule(rest)
  {
    hide AfterSlash;
    AcrossSlash(seg, rest);
    var f, n := seg + [SLASH] + rest, |seg| + 1;
    if PlusRule(f) {
      forall i | 0 <= i < |seg| && seg[i] == PLUS ensures AfterSlash(seg, i) {
        assert f[i] == PLUS;
      }
      forall i | 0 <= i < |rest| && rest[i] == PLUS ensures AfterSlash(rest, i) {
        assert f[n + i] == PLUS;
      }
    }
    if PlusRule(seg) && PlusRule(rest) {
      forall i | 0 <= i < |f| && f[i] == PLUS ensures AfterSlash(f, i) {
        if i >= n {
          assert rest[i - n] == PLUS && f[n + (i - n)] == f[i];
        } else {
          assert i < |seg| && seg[i] == PLUS;
        }
      }
    }
  }

  lemma ConsRules(seg: Segment, r: Path)
    requires |r| >= 1
    ensures (forall i :: 0 <= i < |[seg] + r| && HASH in ([seg] + r)[i] ==> i == |[seg] + r| - 1 && ([seg] + r)[i] == HASH_SEG)
       <==> HASH !in seg && forall i :: 0 <= i < |r| && HASH in r[i] ==> i == |r| - 1 && r[i] == HASH_SEG
    ensures (forall i, j :: 0 <= i < |[seg] + r| && 0 <= j < |([seg] + r)[i]| && ([seg] + r)[i][j] == PLUS ==> j == 0)
       <==> (forall j :: 0 <= j < |seg| && seg[j] == PLUS ==> j == 0) && forall i, j :: 0 <= i < |r| && 0 <= j < |r[i]| && r[i][j] == PLUS ==> j == 0
  {
    var p := [seg] + r;
    assert p[0] == seg;
    assert forall i :: 0 <= i < |r| ==> p[i + 1] == r[i];
    assert forall i :: 1 <= i < |p| ==> p[i] == r[i - 1];
  }

  lemma HeadBySegment(f: Bytes)
    requires PlusRule(f) && f != []
    ensures HeadRule(f) <==> (Split(f)[0] != [] && Split(f)[0][0] == PLUS ==> Split(f)[0] == PLUS_SEG)
  {
    var k := FirstSlash(f);
    assert f == if k == |f| then f[..k] else f[..k] + [SLASH] + f[k + 1..];
    SplitFirst(f[..k], if k == |f| then [] else f[k + 1..]);
    assert Split(f)[0] == f[..k];
  }

  /** The byte checks of validFilter and the segment rules are the same predicate. */
  lemma ValidByBytesIffBySegments(f: Bytes)
    ensures ValidFilterName(f) <==> f != [] && HashRule(f) && PlusRule(f) && HeadRule(f)
  {
    RulesBySegment(f);
    if f != [] && PlusRule(f) {
      HeadBySegment(f);
    }
  }

  /** Every filter that MQTT 3.1.1 allows is accepted; what is accepted beyond that is exactly a
      segment after the first one that starts with '+' and goes on. */
  lemma LegalFiltersAreAccepted(f: Bytes)
    ensures f != [] && LegalFilter(Split(f)) ==> ValidFilterName(f)
    ensures ValidFilterName(f) ==>
      (LegalFilter(Split(f)) <==> !exists i :: 1 <= i < |Split(f)| && |Split(f)[i]| > 1 && Split(f)[i][0] == PLUS)
  {
    var p := Split(f);
    if LegalFilter(p) {
      forall i, j | 0 <= i < |p| && 0 <= j < |p[i]| && p[i][j] == PLUS ensures j == 0 {
        assert PLUS in p[i];
      }
    }
    if ValidFilterName(f) {
      forall i | 0 <= i < |p| && PLUS in p[i] ensures |p[i]| > 0 && p[i][0] == PLUS {
        var j :| 0 <= j < |p[i]| && p[i][j] == PLUS;
      }
      forall i | 1 <= i < |p| && |p[i]| > 1 && p[i][0] == PLUS ensures PLUS in p[i] && p[i] != PLUS_SEG {
      }
    }
  }

  /** "a/+b" is accepted, and illegal. */
  lemma AcceptedIllegalFilter()
    ensures var f: Bytes := [97, SLASH, PLUS, 98];
            ValidFilterName(f) && !LegalFilter(Split(f))
  {
    var f: Bytes := [97, SLASH, PLUS, 98];
    SplitFirst([97], [PLUS, 98]);
    SplitFirst([PLUS, 98], []);
    assert f == [97] + [SLASH] + [PLUS, 98];
    assert Split(f) == [[97], [PLUS, 98]];
    assert PLUS in Split(f)[1];
  }

  /** A topic name holds no wildcard byte exactly when none of its segments does. */
  lemma {:induction false} TopicBySegments(t: Bytes)
    ensures HASH !in t && PLUS !in t <==> TopicPath(Split(t))
  {
    if t == [] {
      assert Split(t) == [[]];
    } else {
      TopicBySegments(t[1..]);
      var r := Split(t[1..]);
      var p := Split(t);
      assert t == [t[0]] + t[1..];
      if t[0] == SLASH {
        assert p == [[]] + r;
        assert forall i :: 0 <= i < |r| ==> p[i + 1] == r[i];
        assert forall i :: 1 <= i < |p| ==> p[i] == r[i - 1];
      } else {
        assert p[0] == [t[0]] + r[0];
        assert p[0][0] == t[0] && p[0][1..] == r[0];
        assert forall i :: 1 <= i < |r| ==> p[i] == r[i];
        if TopicPath(p) {
          assert forall x :: x in r[0] ==> x in p[0];
          assert t[0] in p[0];
          assert TopicSegment(p[0]);
        }
        if HASH !in t && PLUS !in t {
          assert TopicSegment(r[0]);
        }
      }
    }
  }

  // ---------- the checks as the source computes them ----------

  /** bytes.IndexByte of the Go library. */
  function IndexByte(s: Bytes, c: byte): (k: int)
    ensures -1 <= k < |s|
    ensures k == -1 <==> c !in s
    ensures k >= 0 ==> s[k] == c && c !in s[..k]
  {
    if s == [] then -1
    else if s[0] == c then 0
    else
      var k := IndexByte(s[1..], c);
      assert k >= 0 ==> s[..k + 1] == [s[0]] + s[1..][..k];
      if k == -1 then -1 else k + 1
  }

  /** bytes.Count of the Go library, for a one-byte pattern. */
  function Count(s: Bytes, c: byte): (n: nat)
    ensures n <= |s|
    ensures n == 0 <==> c !in s
  {
    if s == [] then 0 else (if s[0] == c then 1 else 0) + Count(s[1..], c)
  }

  lemma {:induction false} CountAtMostOne(s: Bytes, c: byte)
    ensures Count(s, c) <= 1 <==> forall i, j :: 0 <= i < j < |s| ==> !(s[i] == c && s[j] == c)
  {
    if s != [] {
      CountAtMostOne(s[1..], c);
      assert forall i :: 1 <= i < |s| ==> s[i] == s[1..][i - 1];
      if Count(s[1..], c) > 1 {
        var i, j :| 0 <= i < j < |s| - 1 && s[1..][i] == c && s[1..][j] == c;
        assert s[i + 1] == c && s[j + 1] == c;
      } else if s[0] == c && c in s[1..] {
        var j :| 0 <= j < |s| - 1 && s[1..][j] == c;
        assert s[j + 1] == c;
      }
    }
  }

  /** utils/slices.go:14: the positions of a byte, ascending. */
  method IndexAllByte(b: Bytes, c: byte) returns (indices: seq<nat>)
    ensures forall k :: k in indices <==> 0 <= k < |b| && b[k] == c
    ensures forall i, j :: 0 <= i < j < |indices| ==> indices[i] < indices[j]
  {
    indices := [];
    for i := 0 to |b|
      invariant forall k :: k in indices <==> 0 <= k < i && b[k] == c
      invariant forall m :: 0 <= m < |indices| ==> indices[m] < i
      invariant forall m, n :: 0 <= m < n < |indices| ==> indices[m] < indices[n]
    {
      if b[i] == c {
        indices := indices + [i];
      }
    }
  }

  /** The first check of validFilter is the rule on '#'. */
  lemma HashCheck(f: Bytes)
    ensures HashRule(f) <==>
      (var k := IndexByte(f, HASH);
       !(Count(f, HASH) > 1 || (k != -1 && k != |f| - 1) || (k > 0 && f[k - 1] != SLASH)))
  {
    CountAtMostOne(f, HASH);
    var k := IndexByte(f, HASH);
    assert k >= 0 ==> f[k] == HASH;
    if !HashRule(f) {
      var i :| 0 <= i < |f| && f[i] == HASH && !(i == |f| - 1 && AfterSlash(f, i));
    }
  }

  /** topic_filter.go:376. */
  method ValidFilter(filter: Bytes) returns (ok: bool)
    ensures ok <==> ValidFilterName(filter)
  {
    hide ValidFilterName, ValidSegments, Split, IndexByte, Count;
    var multiWildcard := IndexByte(filter, HASH);
    var singleWildcards := IndexAllByte(filter, PLUS);
    var filterLen := |filter|;
    ValidByBytesIffBySegments(filter);
    HashCheck(filter);
    if filterLen == 0 {
      return false;
    }
    if Count(filter, HASH) > 1 || (multiWildcard != -1 && multiWildcard != filterLen - 1)
       || (multiWildcard > 0 && filter[multiWildcard - 1] != SLASH) {
      return false;
    }
    assert forall m :: 0 <= m < |singleWildcards| ==> singleWildcards[m] in singleWildcards;
    for n := 0 to |singleWildcards|
      invariant forall m :: 0 <= m < n ==> AfterSlash(filter, singleWildcards[m])
      invariant forall m :: 0 <= m < n && singleWildcards[m] == 0 ==> HeadRule(filter)
    {
      var idx := singleWildcards[n];
      if idx > 0 && filter[idx - 1] != SLASH {
        return false;
      } else if filterLen > 1 && idx == 0 && idx != filterLen - 1 && filter[idx + 1] != SLASH {
        return false;
      }
    }
    return true;
  }
}

/** When a topic filter matches a topic name: sections 4.7.1.2 and 4.7.1.3 of MQTT 3.1.1,
    stated level by level and without any tree. */
module Matching {
  import opened Base
  import opened Filters

  predicate EndsInHash(f: Path) {
    f != [] && f[|f| - 1] == HASH_SEG
  }

  predicate LevelMatches(f: Segment, t: Segment) {
    f == PLUS_SEG || f == t
  }

  /** `f` matches `t`: level by level, a final '#' standing for the parent and anything below it. */
  predicate Matches(f: Path, t: Path) {
    if EndsInHash(f) then
      |f| - 1 <= |t| && forall i :: 0 <= i < |f| - 1 ==> LevelMatches(f[i], t[i])
    else
      |f| == |t| && forall i :: 0 <= i < |f| ==> LevelMatches(f[i], t[i])
  }

  /** The filter `p` matches `t` without using that "q/#" also matches "q".
      The index answers the parent case with a second entry on the node of "q". */
  predicate MatchesBelow(p: Path, t: Path) {
    Matches(p, t) && (EndsInHash(p) ==> |p| <= |t|)
  }

  predicate HashOnlyLast(f: Path) {
    forall i :: 0 <= i < |f| - 1 ==> f[i] != HASH_SEG
  }

  lemma ValidIsHashOnlyLast(f: Path)
    requires ValidSegments(f)
    ensures HashOnlyLast(f)
  {
    assert forall i :: 0 <= i < |f| && f[i] == HASH_SEG ==> HASH in f[i];
  }

  lemma MatchesStep(f: Path, t: Path)
    requires f != [] && HashOnlyLast(f)
    ensures f[0] == HASH_SEG ==> f == [HASH_SEG] && Matches(f, t) && (MatchesBelow(f, t) <==> t != [])
    ensures f[0] != HASH_SEG ==>
      && (Matches(f, t) <==> t != [] && LevelMatches(f[0], t[0]) && Matches(f[1..], t[1..]))
      && (MatchesBelow(f, t) <==> t != [] && LevelMatches(f[0], t[0]) && MatchesBelow(f[1..], t[1..]))
      && HashOnlyLast(f[1..])
  {
    if f[0] != HASH_SEG {
      assert EndsInHash(f) <==> EndsInHash(f[1..]);
      assert forall i :: 0 <= i < |f| - 1 ==> f[1..][i] == f[i + 1];
      if t != [] {
        assert forall i :: 0 <= i < |t| - 1 ==> t[1..][i] == t[i + 1];
        if LevelMatches(f[0], t[0]) && Matches(f[1..], t[1..]) {
          forall i | 0 <= i < |f| && (EndsInHash(f) ==> i < |f| - 1) ensures i < |t| && LevelMatches(f[i], t[i]) {
            if i > 0 {
              assert LevelMatches(f[1..][i - 1], t[1..][i - 1]);
            }
          }
        }
      }
    }
  }

  /** A filter matches through itself or, when it is "q/#", through "q". */
  lemma MatchesThroughParent(f: Path, t: Path)
    requires HashOnlyLast(f)
    ensures Matches(f, t) <==> MatchesBelow(f, t) || (EndsInHash(f) && MatchesBelow(f[..|f| - 1], t))
  {
    if EndsInHash(f) {
      var q := f[..|f| - 1];
      assert !EndsInHash(q);
    }
  }

  /** One topic never takes both "q" and "q/#". */
  lemma ParentAndHashExclusive(q: Path, t: Path)
    requires !EndsInHash(q) && MatchesBelow(q, t)
    ensures !MatchesBelow(q + [HASH_SEG], t)
  {
    assert EndsInHash(q + [HASH_SEG]);
  }
}

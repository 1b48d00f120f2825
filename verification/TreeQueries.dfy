/** The two walks of the index decide the flat relation of Matching. */
module TreeQueries {
  import opened Base
  import opened Filters
  import opened Matching
  import opened TopicTree
  import opened TreeUpdates

  predicate DistinctPaths(ts: seq<Tree>) {
    forall i, j :: 0 <= i < j < |ts| ==> ts[i].path != ts[j].path
  }

  /** Where `r` lies below `t`. */
  function Below(t: Tree, r: Tree): Path
    requires t.path <= r.path
  {
    r.path[|t.path|..]
  }

  predicate IsBelow(t: Tree, r: Tree) {
    t.path <= r.path && At(t, Below(t, r)) == Some(r)
  }

  /** A node at the end of a topic is taken unless it only leads further down. */
  predicate Takes(r: Tree) {
    Name(r) == HASH_SEG || r.subs != [] || r.kids == []
  }

  // ---------- nodes and paths ----------

  lemma {:induction false} AtPath(t: Tree, p: Path)
    requires WellFormed(t) && At(t, p).Some?
    ensures At(t, p).value.path == t.path + p && WellFormed(At(t, p).value)
    ensures Name(t) != HASH_SEG ==> HashOnlyLast(p)
    decreases |p|
  {
    if p == [] {
      assert t.path + p == t.path;
    } else {
      var k := t.kids[Find(t.kids, p[0])];
      AtPath(k, p[1..]);
      assert t.path + p == t.path + [p[0]] + p[1..];
      if Name(k) == HASH_SEG {
        assert p[1..] == [];
      } else {
        assert forall i :: 1 <= i < |p| ==> p[i] == p[1..][i - 1];
      }
    }
  }

  /** No two nodes share a path: a path names at most one node, and a node only its own path. */
  lemma PathsNameNodes(t: Tree, p: Path, q: Path)
    requires WellFormed(t) && At(t, p).Some? && At(t, q).Some?
    requires At(t, p).value.path == At(t, q).value.path
    ensures p == q
  {
    AtPath(t, p);
    AtPath(t, q);
    assert (t.path + p)[|t.path|..] == p && (t.path + q)[|t.path|..] == q;
  }

  lemma {:induction false} FindOnly(kids: seq<Tree>, i: nat)
    requires DistinctNames(kids) && i < |kids|
    ensures Find(kids, Name(kids[i])) == i
  {
  }

  lemma ChildPath(t: Tree, i: nat)
    requires WellFormed(t) && i < |t.kids|
    ensures t.kids[i].path == t.path + [Name(t.kids[i])] && WellFormed(t.kids[i])
    ensures Find(t.kids, Name(t.kids[i])) == i
  {
    FindOnly(t.kids, i);
  }

  lemma ChildIsBelow(t: Tree, i: nat, r: Tree)
    requires WellFormed(t) && i < |t.kids| && IsBelow(t.kids[i], r)
    ensures IsBelow(t, r) && Below(t, r) == [Name(t.kids[i])] + Below(t.kids[i], r)
  {
    ChildPath(t, i);
    BelowStep(t, t.kids[i], r);
  }

  lemma BelowStep(t: Tree, k: Tree, r: Tree)
    requires k.path == t.path + [Name(k)] && Find(t.kids, Name(k)) < |t.kids| && t.kids[Find(t.kids, Name(k))] == k
    requires IsBelow(k, r)
    ensures IsBelow(t, r) && Below(t, r) == [Name(k)] + Below(k, r)
  {
    hide Name, Find;
    assert r.path == k.path + Below(k, r);
    assert Below(t, r) == [Name(k)] + Below(k, r);
    assert Below(t, r)[1..] == Below(k, r);
  }

  // ---------- findAll ----------

  lemma {:induction false} FindAllMember(kids: seq<Tree>, b: Segment, k: Tree)
    ensures k in FindAll(kids, b) <==> k in kids && HitBy(k, b)
  {
    if kids != [] {
      var n := |kids| - 1;
      FindAllMember(kids[..n], b, k);
      assert kids == kids[..n] + [kids[n]];
    }
  }

  lemma {:induction false} FindAllDistinct(kids: seq<Tree>, b: Segment)
    requires DistinctNames(kids)
    ensures DistinctNames(FindAll(kids, b))
  {
    if kids != [] {
      var n := |kids| - 1;
      FindAllDistinct(kids[..n], b);
      var r := FindAll(kids[..n], b);
      forall i | 0 <= i < |r| ensures Name(r[i]) != Name(kids[n]) {
        FindAllMember(kids[..n], b, r[i]);
        var j :| 0 <= j < n && kids[..n][j] == r[i];
        assert kids[j] == r[i];
      }
    }
  }

  /** Once the rest of the children cannot hit, stopping early loses nothing. */
  lemma {:induction false} FindAllStopsEarly(kids: seq<Tree>, i: nat, b: Segment)
    requires i <= |kids|
    requires forall j :: i <= j < |kids| ==> !HitBy(kids[j], b)
    ensures FindAll(kids, b) == FindAll(kids[..i], b)
    decreases |kids|
  {
    if i == |kids| {
      assert kids[..i] == kids;
    } else {
      var n := |kids| - 1;
      FindAllStopsEarly(kids[..n], i, b);
      assert kids[..n][..i] == kids[..i];
    }
  }

  // ---------- match ----------

  lemma {:induction false} MatchAllMember(hits: seq<Tree>, segs: Path, r: Tree)
    ensures r in MatchAll(hits, segs) <==> exists i :: 0 <= i < |hits| && r in Match(hits[i], segs)
    decreases |hits|
  {
    hide Match;
    if hits != [] {
      var n := |hits| - 1;
      MatchAllMember(hits[..n], segs, r);
      if r in MatchAll(hits[..n], segs) {
        var i :| 0 <= i < n && r in Match(hits[..n][i], segs);
        assert r in Match(hits[i], segs);
      }
      if i :| 0 <= i < |hits| && r in Match(hits[i], segs) {
        if i < n {
          assert r in Match(hits[..n][i], segs);
        }
      }
    }
  }

  lemma MatchComesFromChild(t: Tree, segs: Path, r: Tree) returns (i: nat)
    requires Name(t) != HASH_SEG && segs != [] && r in Match(t, segs)
    ensures i < |t.kids| && HitBy(t.kids[i], segs[0]) && r in Match(t.kids[i], segs[1..])
  {
    var hits := FindAll(t.kids, segs[0]);
    MatchAllMember(hits, segs[1..], r);
    var h :| 0 <= h < |hits| && r in Match(hits[h], segs[1..]);
    FindAllMember(t.kids, segs[0], hits[h]);
    i :| 0 <= i < |t.kids| && t.kids[i] == hits[h];
  }

  lemma HashOnlyLastCons(b: Segment, p: Path)
    requires HashOnlyLast(p) && (b == HASH_SEG ==> p == [])
    ensures HashOnlyLast([b] + p)
  {
    var q := [b] + p;
    assert forall j :: 1 <= j < |q| ==> q[j] == p[j - 1];
  }

  /** Every node that match returns lies on a path that the topic takes. */
  lemma {:induction false} MatchSound(t: Tree, segs: Path, r: Tree)
    requires WellFormed(t) && Name(t) != HASH_SEG && r in Match(t, segs)
    ensures IsBelow(t, r) && MatchesBelow(Below(t, r), segs) && HashOnlyLast(Below(t, r)) && Takes(r)
    decreases |segs|
  {
    if segs != [] {
      var i := MatchComesFromChild(t, segs, r);
      var k := t.kids[i];
      if Name(k) == HASH_SEG {
        assert r == k && Below(k, r) == [];
      } else {
        MatchSound(k, segs[1..], r);
      }
      var q := Below(k, r);
      HashOnlyLastCons(Name(k), q);
      MatchesStep([Name(k)] + q, segs);
      assert ([Name(k)] + q)[1..] == q;
      ChildIsBelow(t, i, r);
    }
  }

  /** Every node on a path that the topic takes is returned. */
  lemma {:induction false} MatchComplete(t: Tree, segs: Path, p: Path)
    requires WellFormed(t) && Name(t) != HASH_SEG
    requires At(t, p).Some? && MatchesBelow(p, segs) && Takes(At(t, p).value)
    ensures At(t, p).value in Match(t, segs)
    decreases |segs|
  {
    AtPath(t, p);
    if p == [] {
      assert segs == [];
    } else {
      var r := At(t, p).value;
      MatchesStep(p, segs);
      var k := t.kids[Find(t.kids, p[0])];
      assert k in t.kids && HitBy(k, segs[0]);
      FindAllMember(t.kids, segs[0], k);
      if p[0] == HASH_SEG {
        assert At(k, p[1..]) == Some(k);
        assert Match(k, segs[1..]) == [k];
      } else {
        MatchComplete(k, segs[1..], p[1..]);
      }
      var hits := FindAll(t.kids, segs[0]);
      var h :| 0 <= h < |hits| && hits[h] == k;
      MatchAllMember(hits, segs[1..], r);
      assert r in MatchAll(hits, segs[1..]);
    }
  }

  lemma MatchStaysBelow(t: Tree, segs: Path, r: Tree)
    requires WellFormed(t) && r in Match(t, segs)
    ensures t.path <= r.path
  {
    if Name(t) != HASH_SEG {
      MatchSound(t, segs, r);
    }
  }

  /** Siblings are walked separately, so their results cannot meet. */
  lemma {:induction false} MatchAllDistinct(hits: seq<Tree>, base: Path, segs: Path)
    requires DistinctNames(hits)
    requires forall i :: 0 <= i < |hits| ==> WellFormed(hits[i]) && hits[i].path == base + [Name(hits[i])]
    ensures DistinctPaths(MatchAll(hits, segs))
    decreases |segs|, 1 + |hits|
  {
    if hits != [] {
      var n := |hits| - 1;
      MatchAllDistinct(hits[..n], base, segs);
      MatchDistinct(hits[n], segs);
      var a, b := MatchAll(hits[..n], segs), Match(hits[n], segs);
      forall i, j | 0 <= i < |a| && 0 <= j < |b| ensures a[i].path != b[j].path {
        MatchAllMember(hits[..n], segs, a[i]);
        var h :| 0 <= h < n && a[i] in Match(hits[..n][h], segs);
        MatchStaysBelow(hits[h], segs, a[i]);
        MatchStaysBelow(hits[n], segs, b[j]);
        assert a[i].path[|base|] == Name(hits[h]) && b[j].path[|base|] == Name(hits[n]);
      }
    }
  }

  /** match never returns a node twice. */
  lemma {:induction false} MatchDistinct(t: Tree, segs: Path)
    requires WellFormed(t)
    ensures DistinctPaths(Match(t, segs))
    decreases |segs|, 0
  {
    if segs != [] && Name(t) != HASH_SEG {
      var hits := FindAll(t.kids, segs[0]);
      FindAllDistinct(t.kids, segs[0]);
      forall i | 0 <= i < |hits| ensures WellFormed(hits[i]) && hits[i].path == t.path + [Name(hits[i])] {
        FindAllMember(t.kids, segs[0], hits[i]);
      }
      MatchAllDistinct(hits, t.path, segs[1..]);
    }
  }

  // ---------- reverse ----------

  predicate FoundIn(k: Tree, segs: Path, r: Tree)
    requires segs != []
  {
    Selected(segs, k) && r in Reverse(k, Rest(segs))
  }

  lemma ReverseAllLast(kids: seq<Tree>, segs: Path, r: Tree)
    requires segs != [] && kids != []
    ensures r in ReverseAll(kids, segs) <==>
            r in ReverseAll(kids[..|kids| - 1], segs) || FoundIn(kids[|kids| - 1], segs, r)
  {
  }

  lemma NothingInNoKids(segs: Path, r: Tree)
    requires segs != []
    ensures r !in ReverseAll([], segs)
  {
  }

  lemma {:induction false} ReverseAllMember(kids: seq<Tree>, segs: Path, r: Tree)
    requires segs != []
    ensures r in ReverseAll(kids, segs) <==> exists i :: 0 <= i < |kids| && FoundIn(kids[i], segs, r)
    decreases |kids|
  {
    hide Reverse, FoundIn, ReverseAll;
    if kids == [] {
      NothingInNoKids(segs, r);
    } else {
      var n := |kids| - 1;
      ReverseAllMember(kids[..n], segs, r);
      ReverseAllLast(kids, segs, r);
      if r in ReverseAll(kids[..n], segs) {
        var i :| 0 <= i < n && FoundIn(kids[..n][i], segs, r);
        assert FoundIn(kids[i], segs, r);
      }
      if i :| 0 <= i < |kids| && FoundIn(kids[i], segs, r) {
        if i < n {
          assert FoundIn(kids[..n][i], segs, r);
        }
      }
    }
  }

  lemma {:induction false} ReverseSound(t: Tree, segs: Path, r: Tree)
    requires WellFormed(t) && Name(t) != HASH_SEG && HashOnlyLast(segs) && r in Reverse(t, segs)
    ensures IsBelow(t, r) && Matches(segs, Below(t, r)) && r.retained.Some?
    decreases t
  {
    if segs == [] {
    } else if segs[0] == HASH_SEG && r == t && t.retained.Some? {
      MatchesStep(segs, []);
    } else {
      ReverseAllMember(t.kids, segs, r);
      var i :| 0 <= i < |t.kids| && FoundIn(t.kids[i], segs, r);
      var k := t.kids[i];
      NoRetainedUnderHash(k, Rest(segs));
      MatchesStep(segs, []);
      ReverseSound(k, Rest(segs), r);
      ChildIsBelow(t, i, r);
      MatchesStep(segs, Below(t, r));
      assert Below(t, r)[1..] == Below(k, r);
    }
  }

  lemma NoRetainedUnderHash(k: Tree, segs: Path)
    requires WellFormed(k)
    ensures Name(k) == HASH_SEG ==> k.retained == None && Reverse(k, segs) == []
  {
    if Name(k) == HASH_SEG {
      if TopicPath(k.path) {
        TopicName(k);
      }
      assert k.kids == [];
    }
  }

  lemma {:induction false} ReverseComplete(t: Tree, segs: Path, p: Path)
    requires WellFormed(t) && Name(t) != HASH_SEG && HashOnlyLast(segs)
    requires At(t, p).Some? && Matches(segs, p) && At(t, p).value.retained.Some?
    ensures At(t, p).value in Reverse(t, segs)
    decreases |p|
  {
    var r := At(t, p).value;
    if segs != [] {
      MatchesStep(segs, p);
      if p != [] {
        var i := Find(t.kids, p[0]);
        var k := t.kids[i];
        assert At(k, p[1..]) == Some(r);
        NoRetainedUnderHash(k, []);
        if segs[0] == HASH_SEG {
          MatchesStep([HASH_SEG], p[1..]);
        }
        ReverseComplete(k, Rest(segs), p[1..]);
        ReverseAllMember(t.kids, segs, r);
        assert FoundIn(k, segs, r);
        assert r in ReverseAll(t.kids, segs);
      }
    }
  }

  lemma {:induction false} ReverseStaysBelow(t: Tree, segs: Path, r: Tree)
    requires WellFormed(t) && r in Reverse(t, segs)
    ensures t.path <= r.path
    decreases t
  {
    if segs != [] && r in ReverseAll(t.kids, segs) {
      ReverseAllMember(t.kids, segs, r);
      var i :| 0 <= i < |t.kids| && FoundIn(t.kids[i], segs, r);
      ReverseStaysBelow(t.kids[i], Rest(segs), r);
    }
  }

  /** What is found through a child lies below that child. */
  lemma FoundBelowChild(t: Tree, n: nat, segs: Path, r: Tree) returns (h: nat)
    requires WellFormed(t) && n <= |t.kids| && segs != [] && r in ReverseAll(t.kids[..n], segs)
    ensures h < n && t.kids[h].path == t.path + [Name(t.kids[h])] && t.kids[h].path <= r.path
  {
    hide ReverseAll, Reverse, Name;
    ReverseAllMember(t.kids[..n], segs, r);
    h :| 0 <= h < n && FoundIn(t.kids[..n][h], segs, r);
    ChildPath(t, h);
    hide WellFormed;
    ReverseStaysBelow(t.kids[h], Rest(segs), r);
  }

  lemma JoinDistinct(a: seq<Tree>, b: seq<Tree>)
    requires DistinctPaths(a) && DistinctPaths(b)
    requires forall i, j :: 0 <= i < |a| && 0 <= j < |b| ==> a[i].path != b[j].path
    ensures DistinctPaths(a + b)
  {
  }

  lemma ReverseAllNext(t: Tree, m: nat, segs: Path)
    requires m < |t.kids| && segs != []
    ensures ReverseAll(t.kids[..m + 1], segs)
         == ReverseAll(t.kids[..m], segs) + if Selected(segs, t.kids[m]) then Reverse(t.kids[m], Rest(segs)) else []
  {
    assert t.kids[..m + 1][..m] == t.kids[..m];
  }

  lemma SiblingsApart(t: Tree, h: nat, m: nat, p: Path, q: Path)
    requires WellFormed(t) && h < m < |t.kids| && t.kids[h].path <= p && t.kids[m].path <= q
    ensures p != q
  {
    ChildPath(t, h);
    ChildPath(t, m);
    assert p[|t.path|] == Name(t.kids[h]) && q[|t.path|] == Name(t.kids[m]);
  }

  lemma {:induction false} ReverseAllDistinct(t: Tree, n: nat, segs: Path)
    requires WellFormed(t) && n <= |t.kids| && segs != []
    ensures DistinctPaths(ReverseAll(t.kids[..n], segs))
    decreases t, n
  {
    hide WellFormed, ReverseAll, Reverse, Selected, DistinctPaths;
    if n == 0 {
      NothingDistinct(segs);
      assert t.kids[..0] == [];
    } else {
      var m := n - 1;
      ReverseAllDistinct(t, m, segs);
      ChildPath(t, m);
      ReverseAllNext(t, m, segs);
      var a := ReverseAll(t.kids[..m], segs);
      if Selected(segs, t.kids[m]) {
        ReverseDistinct(t.kids[m], Rest(segs));
        var b := Reverse(t.kids[m], Rest(segs));
        forall i, j | 0 <= i < |a| && 0 <= j < |b| ensures a[i].path != b[j].path {
          var h := FoundBelowChild(t, m, segs, a[i]);
          ReverseStaysBelow(t.kids[m], Rest(segs), b[j]);
          SiblingsApart(t, h, m, a[i].path, b[j].path);
        }
        JoinDistinct(a, b);
      } else {
        assert a + [] == a;
      }
    }
  }

  lemma NothingDistinct(segs: Path)
    requires segs != []
    ensures DistinctPaths(ReverseAll([], segs))
  {
  }

  /** A node and those found below it. */
  lemma OneThenBelow(t: Tree, found: seq<Tree>)
    requires DistinctPaths(found) && forall j :: 0 <= j < |found| ==> t.path < found[j].path
    ensures DistinctPaths([t] + found)
  {
  }

  lemma {:induction false} ReverseDistinct(t: Tree, segs: Path)
    requires WellFormed(t)
    ensures DistinctPaths(Reverse(t, segs))
    decreases t, |t.kids| + 1
  {
    hide WellFormed, ReverseAll, DistinctPaths;
    if segs == [] {
      SingleDistinct(t);
    } else {
      var found := ReverseAll(t.kids, segs);
      ReverseAllDistinct(t, |t.kids|, segs);
      assert t.kids[..|t.kids|] == t.kids;
      forall j | 0 <= j < |found| ensures t.path < found[j].path {
        var h := FoundBelowChild(t, |t.kids|, segs, found[j]);
      }
      OneThenBelow(t, found);
      assert [] + found == found;
    }
  }

  lemma SingleDistinct(t: Tree)
    ensures DistinctPaths([t]) && DistinctPaths([])
  {
  }
}

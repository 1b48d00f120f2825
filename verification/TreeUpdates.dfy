/** What each update does to the flat index, and that it keeps the representation invariant. */
module TreeUpdates {
  import opened Base
  import opened Filters
  import opened Matching
  import opened TopicTree

  // ---------- one child replaced ----------

  lemma {:induction false} FindPrefix(kids: seq<Tree>, more: seq<Tree>, b: Segment)
    ensures Find(kids, b) < |kids| ==> Find(kids + more, b) == Find(kids, b)
    ensures Find(kids, b) == |kids| ==> Find(kids + more, b) == |kids| + Find(more, b)
  {
    if kids == [] {
      assert kids + more == more;
    } else {
      FindPrefix(kids[1..], more, b);
      assert (kids + more)[1..] == kids[1..] + more;
    }
  }

  /** Replacing a child by one of the same name moves no lookup. */
  lemma {:induction false} FindReplaced(kids: seq<Tree>, i: nat, k: Tree, b: Segment)
    requires i < |kids| && Name(k) == Name(kids[i])
    ensures Find(kids[i := k], b) == Find(kids, b)
  {
    if i > 0 {
      FindReplaced(kids[1..], i - 1, k, b);
      assert kids[i := k][1..] == kids[1..][i - 1 := k];
    } else {
      assert kids[0 := k][1..] == kids[1..];
    }
  }

  lemma AtGraft(t: Tree, b: Segment, k: Tree, p: Path)
    requires Name(k) == b && p != []
    ensures At(Graft(t, b, k), p) == if p[0] == b then At(k, p[1..]) else At(t, p)
  {
    var i := Find(t.kids, b);
    if i < |t.kids| {
      FindReplaced(t.kids, i, k, p[0]);
    } else {
      FindPrefix(t.kids, [k], p[0]);
    }
  }

  lemma AtKid(t: Tree, b: Segment, p: Path)
    requires p != [] && p[0] == b
    ensures SubsAt(t, p) == SubsAt(Kid(t, b), p[1..])
    ensures RetainedAt(t, p) == RetainedAt(Kid(t, b), p[1..])
  {
    if Find(t.kids, b) == |t.kids| && p[1..] != [] {
      assert At(NewLevel(t.path + [b]), p[1..]) == None;
    }
  }

  lemma GraftChildren(t: Tree, b: Segment, k: Tree)
    requires Name(k) == b && DistinctNames(t.kids)
    ensures DistinctNames(Graft(t, b, k).kids)
    ensures forall c :: c in Graft(t, b, k).kids ==> c == k || c in t.kids
  {
    var r := Graft(t, b, k);
    var i := Find(t.kids, b);
    if i < |t.kids| {
      assert forall j :: 0 <= j < |t.kids| ==> Name(r.kids[j]) == Name(t.kids[j]);
    } else {
      assert forall j :: 0 <= j < |t.kids| ==> r.kids[j] == t.kids[j];
    }
  }

  /** What a level itself has to be, and what its children have to be. */
  ghost predicate LevelOk(t: Tree) {
    && NoSlash(t.path) && DistinctIds(t.subs) && (t.retained.Some? ==> TopicPath(t.path))
    && (Name(t) == HASH_SEG ==> t.kids == []) && DistinctNames(t.kids)
    && (t.plus <==> HasKid(t.kids, PLUS_SEG)) && (t.hash <==> HasKid(t.kids, HASH_SEG))
  }

  ghost predicate KidOk(t: Tree, c: Tree) {
    c.path == t.path + [Name(c)] && WellFormed(c)
  }

  lemma WellFormedParts(t: Tree)
    ensures WellFormed(t) <==> LevelOk(t) && forall c :: c in t.kids ==> KidOk(t, c)
  {
    hide DistinctIds, HasKid, DistinctNames, NoSlash, TopicPath, Name;
    assert forall i :: 0 <= i < |t.kids| ==> t.kids[i] in t.kids;
    if WellFormed(t) {
      forall c | c in t.kids ensures KidOk(t, c) {
        var i :| 0 <= i < |t.kids| && t.kids[i] == c;
      }
    }
    if forall c :: c in t.kids ==> KidOk(t, c) {
      forall i | 0 <= i < |t.kids| ensures t.kids[i].path == t.path + [Name(t.kids[i])] && WellFormed(t.kids[i]) {
        assert KidOk(t, t.kids[i]);
      }
    }
  }

  lemma GraftedLevelOk(t: Tree, b: Segment, k: Tree)
    requires LevelOk(t) && Name(t) != HASH_SEG && Name(k) == b
    ensures LevelOk(Flagged(Graft(t, b, k), b))
  {
    GraftChildren(t, b, k);
    SameNamesBelow(t, b, k);
    hide HasKid, DistinctNames, DistinctIds, NoSlash, TopicPath, Find;
  }

  lemma GraftKeepsWellFormed(t: Tree, b: Segment, k: Tree)
    requires WellFormed(t) && WellFormed(k) && Name(t) != HASH_SEG
    requires k.path == t.path + [b] && SLASH !in b
    ensures WellFormed(Flagged(Graft(t, b, k), b))
  {
    hide WellFormed, LevelOk;
    var r := Flagged(Graft(t, b, k), b);
    WellFormedParts(t);
    WellFormedParts(r);
    GraftChildrenOf(t, b, k);
    GraftedLevelOk(t, b, k);
  }

  lemma GraftChildrenOf(t: Tree, b: Segment, k: Tree)
    requires WellFormed(t) && Name(k) == b
    ensures Flagged(Graft(t, b, k), b).path == t.path
    ensures forall c :: c in Flagged(Graft(t, b, k), b).kids ==> c == k || c in t.kids
  {
    GraftChildren(t, b, k);
  }

  lemma SameNamesBelow(t: Tree, b: Segment, k: Tree)
    requires Name(k) == b
    ensures forall x :: HasKid(Graft(t, b, k).kids, x) <==> HasKid(t.kids, x) || x == b
  {
    var r := Graft(t, b, k);
    var i := Find(t.kids, b);
    forall x ensures HasKid(r.kids, x) <==> HasKid(t.kids, x) || x == b {
      if HasKid(t.kids, x) {
        var j :| 0 <= j < |t.kids| && Name(t.kids[j]) == x;
        assert Name(r.kids[j]) == x;
      }
      assert r.kids[i] == k;
      if HasKid(r.kids, x) && x != b {
        var j :| 0 <= j < |r.kids| && Name(r.kids[j]) == x;
        assert r.kids[j] == t.kids[j];
      }
    }
  }

  lemma KidWellFormed(t: Tree, b: Segment)
    requires WellFormed(t) && SLASH !in b
    ensures WellFormed(Kid(t, b)) && Kid(t, b).path == t.path + [b] && Name(Kid(t, b)) == b
    ensures Find(t.kids, b) < |t.kids| ==> (b == PLUS_SEG ==> t.plus) && (b == HASH_SEG ==> t.hash)
  {
  }

  // ---------- Subscribe ----------

  predicate InsertTouches(t: Tree, segs: Path, p: Path) {
    p == segs || (p + [HASH_SEG] == segs && t.path + p != [])
  }

  /** The child that Insert puts in place. */
  function InsertedKid(t: Tree, segs: Path, s: SessionRef, qos: byte): Tree
    requires segs != []
  {
    var k := Kid(t, segs[0]);
    if |segs| == 1 then k.(subs := Upsert(k.subs, s, qos)) else Insert(k, segs[1..], s, qos)
  }

  lemma SameKidsBelow(t: Tree, g: Tree, p: Path)
    requires t.kids == g.kids && p != []
    ensures At(t, p) == At(g, p)
  {
  }

  lemma InsertStep(t: Tree, segs: Path, s: SessionRef, qos: byte, p: Path)
    requires segs != [] && p != []
    ensures SubsAt(Insert(t, segs, s, qos), p) ==
            if p[0] == segs[0] then SubsAt(InsertedKid(t, segs, s, qos), p[1..]) else SubsAt(t, p)
    ensures RetainedAt(Insert(t, segs, s, qos), p) ==
            if p[0] == segs[0] then RetainedAt(InsertedKid(t, segs, s, qos), p[1..]) else RetainedAt(t, p)
  {
    var g := Graft(t, segs[0], InsertedKid(t, segs, s, qos));
    assert Insert(t, segs, s, qos).kids == g.kids;
    AtGraft(t, segs[0], InsertedKid(t, segs, s, qos), p);
    SameKidsBelow(Insert(t, segs, s, qos), g, p);
    hide Insert, InsertedKid, At, Graft;
  }

  lemma TouchesStep(t: Tree, segs: Path, p: Path)
    requires segs != [] && p != [] && p[0] == segs[0]
    requires Kid(t, segs[0]).path != []
    ensures InsertTouches(t, segs, p) <==>
            if |segs| == 1 then p == [segs[0]] else InsertTouches(Kid(t, segs[0]), segs[1..], p[1..])
  {
    assert p == [p[0]] + p[1..] && segs == [segs[0]] + segs[1..];
    assert p + [HASH_SEG] == [p[0]] + (p[1..] + [HASH_SEG]);
    assert (p + [HASH_SEG])[1..] == p[1..] + [HASH_SEG];
  }

  /** Subscribe writes the node of the filter and, for "p/#", the node of "p"; nothing else moves. */
  lemma {:induction false} InsertFlat(t: Tree, segs: Path, s: SessionRef, qos: byte, p: Path)
    requires segs != [] && HashOnlyLast(segs) && NoSlash(segs) && WellFormed(t)
    ensures SubsAt(Insert(t, segs, s, qos), p) ==
            if InsertTouches(t, segs, p) then Upsert(SubsAt(t, p), s, qos) else SubsAt(t, p)
    ensures RetainedAt(Insert(t, segs, s, qos), p) == RetainedAt(t, p)
    decreases |segs|
  {
    hide Insert, Find, Upsert, At;
    if p == [] {
      InsertFlatHere(t, segs, s, qos);
      AtItself(t);
    } else {
      InsertStep(t, segs, s, qos, p);
      if p[0] == segs[0] {
        KidWellFormed(t, segs[0]);
        TouchesStep(t, segs, p);
        AtKid(t, segs[0], p);
        var k := Kid(t, segs[0]);
        if |segs| > 1 {
          InsertFlat(k, segs[1..], s, qos, p[1..]);
        } else if p[1..] == [] {
          assert p == [segs[0]];
          AtItself(k);
          AtItself(InsertedKid(t, segs, s, qos));
        } else {
          AtWithoutSubs(k, Upsert(k.subs, s, qos), p[1..]);
        }
      } else {
        assert (p + [HASH_SEG])[0] == p[0];
      }
    }
  }

  lemma InsertFlatHere(t: Tree, segs: Path, s: SessionRef, qos: byte)
    requires segs != [] && HashOnlyLast(segs)
    ensures SubsAt(Insert(t, segs, s, qos), []) == if InsertTouches(t, segs, []) then Upsert(t.subs, s, qos) else t.subs
    ensures RetainedAt(Insert(t, segs, s, qos), []) == t.retained
  {
    assert [] + [HASH_SEG] == segs <==> segs[0] == HASH_SEG;
    assert t.path + [] == t.path;
  }

  lemma AtItself(k: Tree)
    ensures SubsAt(k, []) == k.subs && RetainedAt(k, []) == k.retained
  {
  }

  lemma AtWithoutSubs(k: Tree, subs: seq<Subscription>, p: Path)
    requires p != []
    ensures At(k.(subs := subs), p) == At(k, p)
  {
  }

  lemma WithSubs(t: Tree, subs: seq<Subscription>)
    requires WellFormed(t) && DistinctIds(subs)
    ensures WellFormed(t.(subs := subs))
  {
    hide DistinctIds;
  }

  lemma SubsDistinct(t: Tree)
    requires WellFormed(t)
    ensures DistinctIds(t.subs)
  {
  }

  /** The last thing Insert does at a level, to a level that is in order. */
  lemma ParentEntryKeeps(t: Tree, b: Segment, s: SessionRef, qos: byte)
    requires WellFormed(t)
    ensures WellFormed(ParentEntry(t, b, s, qos))
  {
    hide WellFormed, Upsert;
    SubsDistinct(t);
    UpsertProps(t.subs, s, qos);
    WithSubs(t, Upsert(t.subs, s, qos));
  }

  lemma InsertIs(t: Tree, segs: Path, s: SessionRef, qos: byte)
    requires segs != []
    ensures Insert(t, segs, s, qos) == ParentEntry(Flagged(Graft(t, segs[0], InsertedKid(t, segs, s, qos)), segs[0]), segs[0], s, qos)
    ensures InsertedKid(t, segs, s, qos).path == Kid(t, segs[0]).path
  {
  }

  lemma {:induction false} InsertKeepsWellFormed(t: Tree, segs: Path, s: SessionRef, qos: byte)
    requires WellFormed(t) && Name(t) != HASH_SEG
    requires HashOnlyLast(segs) && NoSlash(segs)
    ensures WellFormed(Insert(t, segs, s, qos))
    decreases |segs|
  {
    hide WellFormed, Upsert, Kid, ParentEntry, Flagged, Graft;
    if segs == [] {
      InsertNothing(t, s, qos);
    } else {
      var b := segs[0];
      var k := Kid(t, b);
      KidWellFormed(t, b);
      InsertIs(t, segs, s, qos);
      if |segs| == 1 {
        SubsDistinct(k);
        UpsertProps(k.subs, s, qos);
        WithSubs(k, Upsert(k.subs, s, qos));
      } else {
        InsertKeepsWellFormed(k, segs[1..], s, qos);
      }
      hide Insert;
      GraftKeepsWellFormed(t, b, InsertedKid(t, segs, s, qos));
      ParentEntryKeeps(Flagged(Graft(t, b, InsertedKid(t, segs, s, qos)), b), b, s, qos);
    }
  }

  lemma InsertNothing(t: Tree, s: SessionRef, qos: byte)
    ensures Insert(t, [], s, qos) == t
  {
  }

  // ---------- Retain ----------

  /** The child that Retain puts in place. */
  function RetainedKid(t: Tree, segs: Path, msg: Option<Message>): Tree
    requires segs != []
  {
    var k := Kid(t, segs[0]);
    if |segs| == 1 then k.(retained := msg) else Retain(k, segs[1..], msg)
  }

  lemma {:induction false} RetainStep(t: Tree, segs: Path, msg: Option<Message>, p: Path)
    requires segs != [] && p != []
    ensures At(Retain(t, segs, msg), p) == if p[0] == segs[0] then At(RetainedKid(t, segs, msg), p[1..]) else At(t, p)
  {
    assert Name(RetainedKid(t, segs, msg)) == segs[0];
    AtGraft(t, segs[0], RetainedKid(t, segs, msg), p);
    hide At;
  }

  lemma RetainHere(t: Tree, segs: Path, msg: Option<Message>)
    ensures At(Retain(t, segs, msg), []) == Some(Retain(t, segs, msg)) && At(t, []) == Some(t)
    ensures segs != [] ==> Retain(t, segs, msg).subs == t.subs && Retain(t, segs, msg).retained == t.retained
  {
  }

  lemma AtWithRetained(k: Tree, msg: Option<Message>, p: Path)
    ensures SubsAt(k.(retained := msg), p) == SubsAt(k, p)
    ensures RetainedAt(k.(retained := msg), p) == if p == [] then msg else RetainedAt(k, p)
  {
  }

  /** Retain replaces the message of its own topic and leaves every entry alone. */
  lemma {:induction false} RetainFlat(t: Tree, segs: Path, msg: Option<Message>, p: Path)
    requires segs != []
    ensures RetainedAt(Retain(t, segs, msg), p) == if p == segs then msg else RetainedAt(t, p)
    ensures SubsAt(Retain(t, segs, msg), p) == SubsAt(t, p)
    decreases |segs|
  {
    hide At, Retain, Kid;
    if p == [] {
      RetainHere(t, segs, msg);
    } else {
      RetainStep(t, segs, msg, p);
      if p[0] == segs[0] {
        var k := Kid(t, segs[0]);
        AtKid(t, segs[0], p);
        assert p == segs <==> p[1..] == segs[1..] by {
          assert p == [p[0]] + p[1..] && segs == [segs[0]] + segs[1..];
        }
        if |segs| > 1 {
          RetainFlat(k, segs[1..], msg, p[1..]);
        } else {
          AtWithRetained(k, msg, p[1..]);
        }
      }
    }
  }

  lemma {:induction false} RetainKeepsWellFormed(t: Tree, segs: Path, msg: Option<Message>)
    requires WellFormed(t) && TopicPath(t.path)
    requires TopicPath(segs) && NoSlash(segs)
    ensures WellFormed(Retain(t, segs, msg))
    decreases |segs|
  {
    if segs != [] {
      var b := segs[0];
      var k := Kid(t, b);
      KidWellFormed(t, b);
      assert TopicSegment(b);
      TopicSegmentIsNoWildcard(b);
      var k' := if |segs| == 1 then k.(retained := msg) else Retain(k, segs[1..], msg);
      if |segs| > 1 {
        RetainKeepsWellFormed(k, segs[1..], msg);
      }
      TopicName(t);
      GraftKeepsWellFormed(t, b, k');
      assert Flagged(Graft(t, b, k'), b) == Graft(t, b, k');
    }
  }

  lemma TopicSegmentIsNoWildcard(b: Segment)
    requires TopicSegment(b)
    ensures b != PLUS_SEG && b != HASH_SEG
  {
    assert PLUS in PLUS_SEG && HASH in HASH_SEG;
  }

  lemma TopicName(t: Tree)
    requires TopicPath(t.path)
    ensures Name(t) != HASH_SEG && Name(t) != PLUS_SEG
  {
    assert TopicSegment(Name(t));
    TopicSegmentIsNoWildcard(Name(t));
  }

  // ---------- Unsubscribe ----------

  /** Unsubscribe removes one client's entry from one node. */
  lemma {:induction false} DeleteFlat(t: Tree, segs: Path, id: ClientId, p: Path)
    requires segs != []
    ensures SubsAt(Delete(t, segs, id), p) == if p == segs then Remove(SubsAt(t, p), id) else SubsAt(t, p)
    ensures RetainedAt(Delete(t, segs, id), p) == RetainedAt(t, p)
    decreases |segs|
  {
    var b := segs[0];
    if Find(t.kids, b) < |t.kids| {
      var k := Kid(t, b);
      var k' := if |segs| == 1 then k.(subs := Remove(k.subs, id)) else Delete(k, segs[1..], id);
      assert Name(k') == b;
      if p != [] {
        AtGraft(t, b, k', p);
        if p[0] == b {
          AtKid(t, b, p);
          assert p == segs <==> p[1..] == segs[1..] by {
            assert p == [b] + p[1..] && segs == [b] + segs[1..];
          }
          if |segs| > 1 {
            DeleteFlat(k, segs[1..], id, p[1..]);
          } else if p[1..] != [] {
            AtWithoutSubs(k, k'.subs, p[1..]);
          }
        }
      }
    }
  }

  lemma {:induction false} DeleteKeepsWellFormed(t: Tree, segs: Path, id: ClientId)
    requires WellFormed(t) && NoSlash(segs)
    ensures WellFormed(Delete(t, segs, id))
    decreases |segs|
  {
    if segs != [] && Find(t.kids, segs[0]) < |t.kids| {
      var b := segs[0];
      var k := Kid(t, b);
      KidWellFormed(t, b);
      var k' := if |segs| == 1 then k.(subs := Remove(k.subs, id)) else Delete(k, segs[1..], id);
      if |segs| == 1 {
        RemoveProps(k.subs, id);
      } else {
        DeleteKeepsWellFormed(k, segs[1..], id);
      }
      assert Name(t) != HASH_SEG;
      GraftKeepsWellFormed(t, b, k');
      assert Flagged(Graft(t, b, k'), b) == Graft(t, b, k');
    }
  }

  // ---------- UnsubscribeAll ----------

  lemma {:induction false} FindSameNames(a: seq<Tree>, c: seq<Tree>, b: Segment)
    requires |a| == |c| && forall i :: 0 <= i < |a| ==> Name(a[i]) == Name(c[i])
    ensures Find(a, b) == Find(c, b)
  {
    if a != [] {
      assert forall i :: 0 <= i < |a| - 1 ==> Name(a[1..][i]) == Name(c[1..][i]);
      FindSameNames(a[1..], c[1..], b);
    }
  }

  lemma DropAllStep(t: Tree, id: ClientId, top: bool, deep: bool, p: Path)
    requires p != []
    ensures At(DropAll(t, id, top, deep), p) ==
            (var i := Find(t.kids, p[0]);
             if i == |t.kids| then None
             else
               var k := DropAll(t.kids[i], id, deep, deep);
               At(if top then k.(subs := Remove(k.subs, id)) else k, p[1..]))
  {
    var r := DropAll(t, id, top, deep);
    FindSameNames(r.kids, t.kids, p[0]);
  }

  /** UnsubscribeAll removes the client from the nodes of the first level when `top`,
      from all deeper nodes when `deep`, and touches nothing else. */
  lemma {:induction false} DropAllFlat(t: Tree, id: ClientId, top: bool, deep: bool, p: Path)
    ensures RetainedAt(DropAll(t, id, top, deep), p) == RetainedAt(t, p)
    ensures SubsAt(DropAll(t, id, top, deep), p) ==
            if p == [] then t.subs
            else if (if |p| == 1 then top else deep) then Remove(SubsAt(t, p), id) else SubsAt(t, p)
    decreases |p|
  {
    if p != [] {
      DropAllStep(t, id, top, deep, p);
      var i := Find(t.kids, p[0]);
      if i < |t.kids| {
        var k := DropAll(t.kids[i], id, deep, deep);
        DropAllFlat(t.kids[i], id, deep, deep, p[1..]);
        if |p| > 1 {
          AtWithoutSubs(k, Remove(k.subs, id), p[1..]);
        }
      } else {
        assert Remove([], id) == [];
      }
    }
  }

  lemma {:induction false} DropAllKeepsWellFormed(t: Tree, id: ClientId, top: bool, deep: bool)
    requires WellFormed(t)
    ensures WellFormed(DropAll(t, id, top, deep))
    decreases t
  {
    var r := DropAll(t, id, top, deep);
    assert forall i :: 0 <= i < |t.kids| ==> Name(r.kids[i]) == Name(t.kids[i]);
    SameNamesHasKid(r.kids, t.kids);
    forall i | 0 <= i < |t.kids| ensures WellFormed(r.kids[i]) {
      DropAllKeepsWellFormed(t.kids[i], id, deep, deep);
      RemoveProps(t.kids[i].subs, id);
    }
  }

  lemma SameNamesHasKid(a: seq<Tree>, c: seq<Tree>)
    requires |a| == |c| && forall i :: 0 <= i < |a| ==> Name(a[i]) == Name(c[i])
    ensures forall x :: HasKid(a, x) <==> HasKid(c, x)
  {
    forall x ensures HasKid(a, x) <==> HasKid(c, x) {
      if HasKid(a, x) {
        var i :| 0 <= i < |a| && Name(a[i]) == x;
        assert Name(c[i]) == x;
      }
      if HasKid(c, x) {
        var i :| 0 <= i < |a| && Name(c[i]) == x;
        assert Name(a[i]) == x;
      }
    }
  }
}

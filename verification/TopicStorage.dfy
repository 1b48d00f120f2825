/** The top of the index (topicStorage), with the parts of Subscribe, Unsubscribe, UnsubscribeAll, Retain
    and Publish that work on it. Its model is a tree whose root has the empty path. */
module TopicStorage {
  import opened Base
  import opened Filters
  import opened Detaching
  import opened Sessions
  import opened TopicLevels
  import T = TopicTree
  import I = IndexSpec
  import Q = TreeQueries

  class Storage {
    var filters: seq<TopicLevel>
    var hasGlobalFilter: bool
    var hasTopSingleWildcard: bool

    ghost var levels: set<TopicLevel>
    ghost var lists: set<SubscriptionList>
    ghost var model: T.Tree

    ghost predicate Valid()
      reads this, levels, lists
    {
      Linked() && forall i :: 0 <= i < |filters| ==> filters[i].Valid()
    }

    ghost predicate Linked()
      reads this, levels
    {
      && model == T.Level([], [], None, hasTopSingleWildcard, hasGlobalFilter, model.kids)
      && |model.kids| == |filters|
      && (forall i :: 0 <= i < |filters| ==>
            filters[i] in levels && Owns(filters[i]) && filters[i].model == model.kids[i])
      && (forall i, j :: 0 <= i < j < |filters| ==> TopicLevel.Apart(filters[i], filters[j]))
    }

    ghost predicate Owns(c: TopicLevel)
      reads this, c
    {
      && c in c.levels
      && c.levels <= levels
      && c.lists <= lists
      && c.parent == null
      && c.path == [c.bytes]
      && c.model.path == c.path
    }

    lemma Unfold()
      requires Valid()
      ensures Linked() && forall i :: 0 <= i < |filters| ==> filters[i].Valid()
    {
    }

    lemma Fold()
      requires Linked() && forall i :: 0 <= i < |filters| ==> filters[i].Valid()
      ensures Valid()
    {
    }

    constructor ()
      ensures Valid() && model == T.EMPTY_TREE && fresh(levels) && fresh(lists)
    {
      filters := [];
      hasGlobalFilter := false;
      hasTopSingleWildcard := false;
      levels := {};
      lists := {};
      model := T.EMPTY_TREE;
    }

    method Find(b: Segment) returns (l: TopicLevel?, ghost i: nat)
      requires Valid()
      ensures i == T.Find(model.kids, b) <= |filters| == |model.kids|
      ensures l == if T.Find(model.kids, b) == |filters| then null else filters[T.Find(model.kids, b)]
    {
      i := 0;
      for n := 0 to |filters|
        invariant i == n <= T.Find(model.kids, b)
      {
        assert T.Name(model.kids[n]) == filters[n].bytes;
        if filters[n].bytes == b {
          return filters[n], n;
        }
        i := i + 1;
      }
      l := null;
    }

    /** topic_filter.go:284, for a new level. */
    method AddTopLevel(b: Segment) returns (l: TopicLevel)
      requires Valid()
      modifies this
      ensures Valid()
      ensures filters == old(filters) + [l] && l.bytes == b && l.model == T.NewLevel([b])
      ensures model == T.Flagged(old(model).(kids := old(model).kids + [l.model]), b)
      ensures fresh(levels - old(levels)) && fresh(lists - old(lists))
    {
      hide Valid, TopicLevel.Valid;
      Unfold();
      l := new TopicLevel(b, null);
      filters := filters + [l];
      levels := levels + l.levels;
      lists := lists + l.lists;
      model := model.(kids := model.kids + [l.model]);
      Fold();
      MarkWildcard(b);
    }

    /** topic_filter.go:288-292. */
    method MarkWildcard(b: Segment)
      requires Valid()
      modifies this`hasGlobalFilter, this`hasTopSingleWildcard, this`model
      ensures Valid()
      ensures model == T.Flagged(old(model), b)
    {
      hide Valid, TopicLevel.Valid, TopicLevel.Rooted, T.Name;
      Unfold();
      if b == HASH_SEG {
        hasGlobalFilter := true;
      } else if b == PLUS_SEG {
        hasTopSingleWildcard := true;
      }
      model := T.Flagged(model, b);
      Fold();
    }

    /** find and addTopLevel (broker.go:217-222, broker.go:296-301). */
    method FindOrAdd(b: Segment) returns (l: TopicLevel, ghost i: nat)
      requires Valid() && T.WellFormed(model)
      modifies this
      ensures Valid()
      ensures i == T.Find(old(model).kids, b) < |filters| && l == filters[i] && l.bytes == b
      ensures l.model == T.Kid(old(model), b)
      ensures model == T.Flagged(T.Graft(old(model), b, l.model), b)
      ensures fresh(levels - old(levels)) && fresh(lists - old(lists))
    {
      hide Valid, TopicLevel.Valid;
      Unfold();
      var found: TopicLevel?;
      found, i := Find(b);
      if found == null {
        l := AddTopLevel(b);
      } else {
        l := found;
        assert T.Name(model.kids[i]) == l.bytes;
        assert model.kids[i := l.model] == model.kids;
        FlagsAlreadySet(model, b);
      }
    }

    /** Everything is in order except that the level at `i` has changed since `levels`, `lists` and `model` were set. */
    ghost predicate ValidBut(i: nat)
      reads *
    {
      && i < |filters|
      && model == T.Level([], [], None, hasTopSingleWildcard, hasGlobalFilter, model.kids)
      && |model.kids| == |filters|
      && (forall j :: 0 <= j < |filters| ==> filters[j].Valid())
      && (forall j :: 0 <= j < |filters| && j != i ==>
            filters[j] in levels && Owns(filters[j]) && filters[j].model == model.kids[j])
      && (forall j, k :: 0 <= j < k < |filters| ==> TopicLevel.Apart(filters[j], filters[k]))
      && filters[i].parent == null && filters[i].path == [filters[i].bytes]
      && filters[i].model.path == filters[i].path && filters[i] in filters[i].levels
    }

    ghost method Adopt(i: nat)
      requires ValidBut(i)
      modifies this`levels, this`lists, this`model
      ensures Valid()
      ensures model == old(model).(kids := old(model).kids[i := filters[i].model])
      ensures levels == old(levels) + filters[i].levels && lists == old(lists) + filters[i].lists
    {
      hide Valid, TopicLevel.Valid;
      levels := levels + filters[i].levels;
      lists := lists + filters[i].lists;
      model := model.(kids := model.kids[i := filters[i].model]);
      Fold();
    }

    // ---------- Subscribe ----------

    /** broker.go:205-228. */
    method Subscribe(s: SessionRef, filter: Bytes, qos: byte) returns (ok: bool)
      requires Valid() && T.WellFormed(model)
      modifies this, levels, lists
      ensures Valid()
      ensures ok <==> ValidFilterName(filter)
      ensures model == I.Apply(old(model), I.Subscribe(s, filter, qos))
      ensures fresh(levels - old(levels)) && fresh(lists - old(lists))
    {
      hide Valid, TopicLevel.Valid, T.WellFormed, T.Insert, T.Graft, T.Kid, T.Flagged, T.Find, Subscribed, ValidFilterName, Split;
      ok := ValidFilter(filter);
      if !ok {
        return;
      }
      var segs := Split(filter);
      Unfold();
      InsertAtRoot(model, segs, s, qos);
      var l, i := FindOrAdd(segs[0]);
      SubscribeAt(l, i, s, segs[1..], qos);
    }

    method SubscribeAt(l: TopicLevel, ghost i: nat, s: SessionRef, segs: Path, qos: byte)
      requires Valid() && i < |filters| && l == filters[i]
      modifies this, levels, lists
      ensures Valid()
      ensures model == old(model).(kids := old(model).kids[i := Subscribed(old(model).kids[i], s, segs, qos)])
      ensures fresh(levels - old(levels)) && fresh(lists - old(lists))
    {
      hide Valid, TopicLevel.Valid, Subscribed;
      Unfold();
      assert forall j :: 0 <= j < |filters| && j != i ==> TopicLevel.Apart(filters[j], l);
      l.SubscribeBelow(s, segs, qos);
      l.Unfold();
      forall j | 0 <= j < |filters| && j != i
        ensures filters[j] in levels && Owns(filters[j]) && filters[j].model == model.kids[j]
             && filters[j].Valid() && TopicLevel.Apart(filters[j], l)
      {
        assert old(TopicLevel.Apart(filters[j], l));
      }
      Adopt(i);
    }

    // ---------- Unsubscribe ----------

    /** broker.go:249. */
    method Unsubscribe(s: SessionRef, filter: Bytes, sessions: SessionTable) returns (success: bool)
      requires Valid()
      modifies this`model, levels`model, lists, sessions
      ensures Valid()
      ensures model == I.Apply(old(model), I.Unsubscribe(s, filter))
      ensures success <==> ValidFilterName(filter) && T.Holds(T.SubsAt(old(model), Split(filter)), s.id)
      ensures sessions.entries == old(sessions.entries)
    {
      hide Valid, TopicLevel.Valid, Deleted, ValidFilterName, Split, T.SubsAt, T.Delete, T.Find;
      var ok := ValidFilter(filter);
      if !ok {
        return false;
      }
      var segs := Split(filter);
      DeleteInSteps(model, segs, s.id);
      Unfold();
      var l, i := Find(segs[0]);
      if l != null {
        success := DeleteAt(l, i, s, segs[1..], sessions);
        return;
      }
      NothingHeld(s.id);
      return false;
    }

    method DeleteAt(l: TopicLevel, ghost i: nat, s: SessionRef, segs: Path, sessions: SessionTable) returns (success: bool)
      requires Valid() && i < |filters| && l == filters[i]
      modifies this`model, levels`model, lists, sessions
      ensures Valid()
      ensures model == old(model).(kids := old(model).kids[i := Deleted(old(model).kids[i], segs, s.id)])
      ensures success <==> T.Holds(T.SubsAt(old(model).kids[i], segs), s.id)
      ensures sessions.entries == old(sessions.entries)
    {
      hide Valid, TopicLevel.Valid, Deleted, T.SubsAt, T.Holds;
      Unfold();
      assert forall j :: 0 <= j < |filters| && j != i ==> TopicLevel.Apart(filters[j], l);
      success := l.DeleteBelow(s, segs, sessions);
      l.Unfold();
      forall j | 0 <= j < |filters| && j != i
        ensures filters[j] in levels && Owns(filters[j]) && filters[j].model == model.kids[j]
             && filters[j].Valid() && TopicLevel.Apart(filters[j], l)
      {
        assert old(TopicLevel.Apart(filters[j], l));
      }
      AdoptModel(i);
    }

    ghost method AdoptModel(i: nat)
      requires ValidBut(i) && Owns(filters[i]) && filters[i] in levels
      modifies this`model
      ensures Valid()
      ensures model == old(model).(kids := old(model).kids[i := filters[i].model])
    {
      hide Valid, TopicLevel.Valid;
      model := model.(kids := model.kids[i := filters[i].model]);
      Fold();
    }

    // ---------- UnsubscribeAll ----------

    /** broker.go:274: a graceful disconnect deletes on the top levels, whatever the session. */
    method UnsubscribeAll(s: SessionRef, gracefulDisconnect: bool, sessions: SessionTable)
      requires Valid()
      modifies this`model, levels`model, lists, sessions
      ensures Valid()
      ensures model == I.Apply(old(model), I.UnsubscribeAll(s, gracefulDisconnect))
      ensures sessions.entries ==
              DetachKids(old(sessions.entries), old(model).kids, s.id, gracefulDisconnect || s.clean, s.clean)
    {
      hide Valid, TopicLevel.Valid, T.DropAll, Dropped, DetachKids, DetachUnder;
      Unfold();
      ghost var was, top := model, gracefulDisconnect || s.clean;
      DetachNone(sessions.entries, s.id, top, s.clean);
      for n := 0 to |filters|
        invariant Valid() && |model.kids| == |filters|
        invariant |was.kids| == |filters|
        invariant model == was.(kids := model.kids)
        invariant forall j :: 0 <= j < n ==> model.kids[j] == Dropped(was.kids[j], s.id, top, s.clean)
        invariant forall j :: n <= j < |filters| ==> model.kids[j] == was.kids[j]
        invariant sessions.entries == DetachKids(old(sessions.entries), was.kids[..n], s.id, top, s.clean)
      {
        DetachLast(old(sessions.entries), was.kids[..n + 1], s.id, top, s.clean);
        assert was.kids[..n + 1][..n] == was.kids[..n];
        DropAt(n, s, gracefulDisconnect, sessions);
      }
      assert was.kids[..|filters|] == was.kids;
      DropAllIsDropped(was, model.kids, s.id, top, s.clean);
    }

    method DropAt(i: nat, s: SessionRef, graceful: bool, sessions: SessionTable)
      requires Valid() && i < |filters|
      modifies this`model, levels`model, lists, sessions
      ensures Valid()
      ensures model == old(model).(kids := old(model).kids[i := Dropped(old(model).kids[i], s.id, graceful || s.clean, s.clean)])
      ensures sessions.entries == DetachUnder(old(sessions.entries), old(model).kids[i], s.id, graceful || s.clean, s.clean)
    {
      hide Valid, TopicLevel.Valid, Dropped, DetachUnder;
      Unfold();
      var l := filters[i];
      assert forall j :: 0 <= j < |filters| && j != i ==> TopicLevel.Apart(filters[j], l);
      l.DropFrom(s, graceful, sessions);
      l.Unfold();
      forall j | 0 <= j < |filters| && j != i
        ensures filters[j] in levels && Owns(filters[j]) && filters[j].model == model.kids[j]
             && filters[j].Valid() && TopicLevel.Apart(filters[j], l)
      {
        assert old(TopicLevel.Apart(filters[j], l));
      }
      AdoptModel(i);
    }

    // ---------- Retain ----------

    /** broker.go:284. Its caller has checked the topic; a message is checked again here. */
    method Retain(msg: Option<Message>, topic: Bytes)
      requires Valid() && T.WellFormed(model)
      requires (msg.Some? ==> ValidTopicName(msg.value.topic)) ==> ValidTopicName(topic)
      modifies this, levels
      ensures Valid()
      ensures model == if msg.Some? && !ValidTopicName(msg.value.topic) then old(model)
                       else I.Apply(old(model), I.Retain(msg, topic))
      ensures fresh(levels - old(levels)) && fresh(lists - old(lists))
    {
      hide Valid, TopicLevel.Valid, T.WellFormed, T.Retain, T.Graft, T.Kid, T.Flagged, T.Find, Retained, Split, ValidTopicName;
      if msg.Some? && !ValidTopicName(msg.value.topic) {
        return;
      }
      var segs := Split(topic);
      I.SplitIsTopicPath(topic);
      RetainAtRoot(model, segs, msg);
      Unfold();
      var l, i := FindOrAdd(segs[0]);
      assert [segs[0]] + segs[1..] == segs;
      RetainAt(l, i, msg, segs[1..]);
    }

    method RetainAt(l: TopicLevel, ghost i: nat, msg: Option<Message>, segs: Path)
      requires Valid() && i < |filters| && l == filters[i] && TopicPath([l.bytes] + segs)
      modifies this, levels
      ensures Valid()
      ensures model == old(model).(kids := old(model).kids[i := Retained(old(model).kids[i], segs, msg)])
      ensures fresh(levels - old(levels)) && fresh(lists - old(lists))
    {
      hide Valid, TopicLevel.Valid, Retained;
      Unfold();
      assert forall j :: 0 <= j < |filters| && j != i ==> TopicLevel.Apart(filters[j], l);
      l.RetainBelow(msg, segs);
      l.Unfold();
      forall j | 0 <= j < |filters| && j != i
        ensures filters[j] in levels && Owns(filters[j]) && filters[j].model == model.kids[j]
             && filters[j].Valid() && TopicLevel.Apart(filters[j], l)
      {
        assert old(TopicLevel.Apart(filters[j], l));
      }
      Adopt(i);
    }

    // ---------- match and reverseMatch ----------

    /** topic_filter.go:304, with its early exit. */
    method FindAll(b: Segment) returns (matches: seq<TopicLevel>)
      requires Valid() && T.WellFormed(model) && b != PLUS_SEG && b != HASH_SEG
      ensures Mirror(matches, T.FindAll(model.kids, b))
      ensures forall m :: m in matches ==> m in filters
    {
      hide Valid, T.FindAll, T.HasKid, T.WellFormed;
      Unfold();
      FindAllNone(b);
      matches := [];
      var targetFound, globalFilterFound, topSingleWildcardFound := false, false, false;
      for n := 0 to |filters|
        invariant Mirror(matches, T.FindAll(model.kids[..n], b))
        invariant forall m :: m in matches ==> m in filters
        invariant targetFound <==> T.HasKid(model.kids[..n], b)
        invariant globalFilterFound <==> T.HasKid(model.kids[..n], HASH_SEG)
        invariant topSingleWildcardFound <==> T.HasKid(model.kids[..n], PLUS_SEG)
      {
        var f := filters[n];
        ghost var before := matches;
        FindAllStep(model, n, b);
        assert T.Name(model.kids[n]) == f.bytes;
        if !targetFound && f.bytes == b {
          matches := matches + [f];
          targetFound := true;
        }
        if hasGlobalFilter && !globalFilterFound && f.bytes == HASH_SEG {
          matches := matches + [f];
          globalFilterFound := true;
        }
        if hasTopSingleWildcard && !topSingleWildcardFound && f.bytes == PLUS_SEG {
          matches := matches + [f];
          topSingleWildcardFound := true;
        }
        assert matches == before + if T.HitBy(model.kids[n], b) then [f] else [];
        if targetFound && (!hasGlobalFilter || globalFilterFound) && (!hasTopSingleWildcard || topSingleWildcardFound) {
          NoHitAfterAll(model, n + 1, b);
          return;
        }
      }
      assert model.kids[..|filters|] == model.kids;
    }

    /** topic_filter.go:340. */
    method Match(topic: Bytes) returns (matches: seq<TopicLevel>)
      requires Valid() && T.WellFormed(model) && ValidTopicName(topic)
      ensures Extends(matches, [], T.Match(model, Split(topic)), levels)
    {
      hide Valid, TopicLevel.Valid, Extends, T.WellFormed, T.Match, T.MatchAll, T.FindAll, Split;
      Unfold();
      var segs := Split(topic);
      I.SplitIsTopicPath(topic);
      UnfoldMatch(model, segs);
      TopicSegmentsApart(segs);
      var hits := FindAll(segs[0]);
      ghost var trees := T.FindAll(model.kids, segs[0]);
      KidsWellFormed(model);
      MatchAllNone(segs[1..]);
      matches := [];
      ExtendByNone([], levels);
      for n := 0 to |hits|
        invariant Extends(matches, [], T.MatchAll(trees[..n], segs[1..]), levels)
      {
        ghost var before := matches;
        var hit := hits[n];
        assert hit in filters;
        matches := hit.Match(segs[1..], matches);
        MatchAllStep(trees, n, segs[1..]);
        ExtendTwice(matches, before, [], T.MatchAll(trees[..n], segs[1..]), T.Match(hit.model, segs[1..]), levels, hit.levels);
      }
      assert trees[..|hits|] == trees;
      if model.kids == [] {
        FindAllNone(segs[0]);
      }
    }

    /** topic_filter.go:353: the three branches at the top do what reverse does below. */
    method ReverseMatch(filter: Bytes) returns (matches: seq<TopicLevel>)
      requires Valid() && T.WellFormed(model)
      ensures Extends(matches, [], T.Reverse(model, Split(filter)), levels)
    {
      hide Valid, TopicLevel.Valid, Extends, T.WellFormed, T.Reverse, T.ReverseAll, Split;
      Unfold();
      var segs := Split(filter);
      var isSingleWildcard := segs[0] == PLUS_SEG;
      var isMultiWildcard := segs[0] == HASH_SEG;
      UnfoldReverse(model, segs);
      ReverseAllNone(segs);
      matches := [];
      ExtendByNone([], levels);
      for n := 0 to |filters|
        invariant Extends(matches, [], T.ReverseAll(model.kids[..n], segs), levels)
      {
        var level := filters[n];
        ghost var before := matches;
        level.Unfold();
        ReverseAllStep(model.kids, n, segs);
        TopReverse(model, n, segs);
        ExtendByNone(before, level.levels);
        ExtendByOne(before, level, level.levels);
        ghost var more: seq<T.Tree> := [];
        if |segs| == 1 && isSingleWildcard && level.retainedMessage != None {
          matches := matches + [level];
          more := [level.model];
        } else if (isSingleWildcard || segs[0] == level.bytes) && level.bytes != HASH_SEG {
          matches := level.Reverse(segs[1..], matches);
          more := T.Reverse(level.model, segs[1..]);
        } else if isMultiWildcard {
          matches := level.Reverse([HASH_SEG], matches);
          more := T.Reverse(level.model, [HASH_SEG]);
        }
        ExtendTwice(matches, before, [], T.ReverseAll(model.kids[..n], segs), more, levels, level.levels);
      }
      assert model.kids[..|filters|] == model.kids;
      assert [] + T.ReverseAll(model.kids, segs) == T.ReverseAll(model.kids, segs);
    }
  }

  lemma FlagsAlreadySet(t: T.Tree, b: Segment)
    requires T.WellFormed(t) && T.Find(t.kids, b) < |t.kids|
    ensures T.Flagged(t, b) == t
  {
  }

  lemma InsertAtRoot(t: T.Tree, segs: Path, s: SessionRef, qos: byte)
    requires segs != [] && t.path == []
    ensures var b, i := segs[0], T.Find(t.kids, segs[0]);
            var m := T.Flagged(T.Graft(t, b, T.Kid(t, b)), b);
            && i < |m.kids|
            && T.Insert(t, segs, s, qos) == m.(kids := m.kids[i := Subscribed(m.kids[i], s, segs[1..], qos)])
  {
    InsertInSteps(t, segs, s, qos);
  }

  lemma RetainAtRoot(t: T.Tree, segs: Path, msg: Option<Message>)
    requires segs != [] && TopicPath(segs)
    ensures var b, i := segs[0], T.Find(t.kids, segs[0]);
            var m := T.Flagged(T.Graft(t, b, T.Kid(t, b)), b);
            && i < |m.kids|
            && T.Retain(t, segs, msg) == m.(kids := m.kids[i := Retained(m.kids[i], segs[1..], msg)])
  {
    RetainInSteps(t, segs, msg);
    TopicSegmentsApart(segs);
  }

  lemma NothingHeld(id: ClientId)
    ensures !T.Holds([], id)
  {
  }

  /** Below the root, what reverse does with a child is what the three branches of reverseMatch do. */
  lemma TopReverse(t: T.Tree, n: nat, segs: Path)
    requires T.WellFormed(t) && n < |t.kids| && segs != []
    ensures var k := t.kids[n];
            (if segs[0] == HASH_SEG then T.Reverse(k, [HASH_SEG])
             else if segs[0] == PLUS_SEG || segs[0] == T.Name(k) then T.Reverse(k, segs[1..])
             else []) ==
            (if |segs| == 1 && segs[0] == PLUS_SEG && k.retained.Some? then [k]
             else if (segs[0] == PLUS_SEG || segs[0] == T.Name(k)) && T.Name(k) != HASH_SEG then T.Reverse(k, segs[1..])
             else if segs[0] == HASH_SEG then T.Reverse(k, [HASH_SEG])
             else [])
  {
    var k := t.kids[n];
    if T.Name(k) == HASH_SEG {
      Q.NoRetainedUnderHash(k, segs[1..]);
      Q.NoRetainedUnderHash(k, [HASH_SEG]);
    }
  }
}

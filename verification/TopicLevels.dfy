/** The index as the source builds it: topic levels linked by pointers and changed in place.
    Every method is proved against the function of TopicTree with the same job. */
module TopicLevels {
  import opened Base
  import opened Filters
  import opened Detaching
  import opened Sessions
  import T = TopicTree
  import Q = TreeQueries

  /** atomic.go:22. */
  class SubscriptionList {
    var subs: seq<Subscription>

    constructor ()
      ensures subs == []
    {
      subs := [];
    }

    /** atomic.go:27. */
    method Delete(index: nat)
      requires index < |subs|
      modifies this
      ensures subs == old(subs)[..index] + old(subs)[index + 1..]
    {
      var newSubs := subs[..index];
      if index != |subs| - 1 {
        newSubs := newSubs + subs[index + 1..];
      }
      subs := newSubs;
    }

    method Add(sub: Subscription)
      modifies this
      ensures subs == old(subs) + [sub]
    {
      subs := subs + [sub];
    }

    /** The loop that Range and RangeDelete run until the callback stops it at a client's entry. */
    method Locate(id: ClientId) returns (i: nat)
      ensures i == T.IndexOf(subs, id)
    {
      i := 0;
      while i < |subs| && subs[i].session.id != id
        invariant i <= T.IndexOf(subs, id)
      {
        i := i + 1;
      }
    }
  }

  class TopicLevel {
    const bytes: Segment
    const parent: TopicLevel?
    const subscriptions: SubscriptionList
    var children: seq<TopicLevel>
    var hasSingleWildcardAsChild: bool
    var hasMultiWildcardAsChild: bool
    var retainedMessage: Option<Message>

    ghost const path: Path                  // from the top level down to this one
    ghost var levels: set<TopicLevel>       // this level and all below
    ghost var lists: set<SubscriptionList>  // their subscription lists
    ghost var model: T.Tree

    ghost predicate Valid()
      reads this, levels, lists
      decreases levels
    {
      Linked() && forall i :: 0 <= i < |children| ==> children[i].Valid()
    }

    /** Valid is unfolded one level at a time: the methods hide its body and use these two lemmas. */
    lemma Unfold()
      requires Valid()
      ensures Linked() && forall i :: 0 <= i < |children| ==> children[i].Valid()
    {
    }

    lemma Fold()
      requires Linked() && forall i :: 0 <= i < |children| ==> children[i].Valid()
      ensures Valid()
    {
    }

    /** Everything but what the children say of themselves. */
    ghost predicate Linked()
      reads this, levels, lists
    {
      && this in levels
      && subscriptions in lists
      && Rooted()
      && model == T.Level(path, subscriptions.subs, retainedMessage,
                          hasSingleWildcardAsChild, hasMultiWildcardAsChild, model.kids)
      && |model.kids| == |children|
      && (forall i :: 0 <= i < |children| ==>
            children[i] in levels && Owns(children[i]) && children[i].model == model.kids[i])
      && (forall i, j :: 0 <= i < j < |children| ==> Apart(children[i], children[j]))
    }

    ghost predicate Owns(c: TopicLevel)
      reads this, c
    {
      && c in c.levels
      && c.levels <= levels - {this}
      && c.lists <= lists - {subscriptions}
      && c.parent == this
      && c.path == path + [c.bytes]
      && c.model.path == c.path
    }

    static ghost predicate Apart(c: TopicLevel, d: TopicLevel)
      reads c, d
    {
      c.levels !! d.levels && c.lists !! d.lists
    }

    /** The parent links lead to the top in as many steps as the path is long. */
    ghost predicate Rooted()
      decreases |path|
    {
      if parent == null then path == [bytes]
      else parent.path != [] && |parent.path| < |path| && path == parent.path + [bytes] && parent.Rooted()
    }

    constructor (bytes: Segment, parent: TopicLevel?)
      requires parent != null ==> parent.Rooted()
      ensures Valid() && fresh(levels) && fresh(lists)
      ensures this.bytes == bytes && this.parent == parent
      ensures model == T.NewLevel(if parent == null then [bytes] else parent.path + [bytes])
      ensures model.path == path && children == [] && levels == {this} && lists == {subscriptions}
    {
      this.bytes := bytes;
      this.parent := parent;
      var list := new SubscriptionList();
      subscriptions := list;
      children := [];
      hasSingleWildcardAsChild := false;
      hasMultiWildcardAsChild := false;
      retainedMessage := None;
      path := if parent == null then [bytes] else parent.path + [bytes];
      levels := {this};
      lists := {list};
      model := T.NewLevel(if parent == null then [bytes] else parent.path + [bytes]);
    }

    /** topic_filter.go:264. */
    function Path(): (s: Bytes)
      requires Rooted()
      ensures s == Join(path)
      decreases |path|
    {
      if parent == null then bytes
      else
        JoinExtended(parent.path, bytes);
        parent.Path() + [SLASH] + bytes
    }

    method Find(b: Segment) returns (l: TopicLevel?, ghost i: nat)
      requires Valid()
      ensures i == T.Find(model.kids, b) <= |children| == |model.kids|
      ensures l == if T.Find(model.kids, b) == |children| then null else children[T.Find(model.kids, b)]
    {
      i := 0;
      for n := 0 to |children|
        invariant i == n <= T.Find(model.kids, b)
      {
        assert T.Name(model.kids[n]) == children[n].bytes;
        if children[n].bytes == b {
          return children[n], n;
        }
        i := i + 1;
      }
      l := null;
    }

    // ---------- single-level changes ----------

    /** topic_filter.go:194. */
    method CreateOrUpdateSubscription(s: SessionRef, qos: byte)
      requires Valid()
      modifies this`model, subscriptions
      ensures Valid()
      ensures model == old(model).(subs := T.Upsert(old(model).subs, s, qos))
    {
      hide Valid;
      Unfold();
      var i := subscriptions.Locate(s.id);
      if i < |subscriptions.subs| {
        subscriptions.subs := subscriptions.subs[i := Subscription(s, qos)];
      } else {
        subscriptions.Add(Subscription(s, qos));
      }
      model := model.(subs := subscriptions.subs);
      Fold();
    }

    /** topic_filter.go:219: the entry goes, or its session loses its connection. */
    method DeleteSubscription(s: SessionRef, graceful: bool, sessions: SessionTable) returns (success: bool)
      requires Valid()
      modifies this`model, subscriptions, sessions
      ensures Valid()
      ensures success <==> T.Holds(old(model).subs, s.id)
      ensures model == if graceful || s.clean then old(model).(subs := T.Remove(old(model).subs, s.id)) else old(model)
      ensures sessions.entries ==
              if graceful || s.clean then old(sessions.entries) else DetachEntry(old(sessions.entries), old(model), s.id)
    {
      hide Valid, Rooted;
      Unfold();
      var i := subscriptions.Locate(s.id);
      if i == |subscriptions.subs| {
        return false;
      }
      if graceful || s.clean {
        DeleteEntry(i);
      } else {
        sessions.entries := Detach(sessions.entries, subscriptions.subs[i].session);
      }
      return true;
    }

    /** topic_filter.go:29. */
    method DeleteEntry(i: nat)
      requires Valid() && i < |subscriptions.subs|
      modifies this`model, subscriptions
      ensures Valid()
      ensures model == old(model).(subs := old(model).subs[..i] + old(model).subs[i + 1..])
    {
      hide Valid, Rooted;
      Unfold();
      subscriptions.Delete(i);
      model := model.(subs := subscriptions.subs);
      Fold();
    }

    /** A new level under this one (topic_filter.go:96-97). */
    method AddLevel(b: Segment) returns (l: TopicLevel)
      requires Valid()
      modifies this`children, this`levels, this`lists, this`model
      ensures Valid()
      ensures children == old(children) + [l] && l.bytes == b
      ensures l.model == T.NewLevel(path + [b]) && l.path == path + [b]
      ensures model == old(model).(kids := old(model).kids + [l.model])
      ensures fresh(levels - old(levels)) && fresh(lists - old(lists))
    {
      hide Valid, Rooted;
      Unfold();
      l := new TopicLevel(b, this);
      children := children + [l];
      levels := levels + l.levels;
      lists := lists + l.lists;
      model := model.(kids := model.kids + [l.model]);
      Fold();
    }

    /** find, and when there is none a new level (topic_filter.go:92-98). */
    method FindOrAdd(b: Segment) returns (l: TopicLevel, ghost i: nat)
      requires Valid()
      modifies this`children, this`levels, this`lists, this`model
      ensures Valid()
      ensures i == T.Find(old(model).kids, b) < |children| && l == children[i] && l.bytes == b
      ensures l.model == T.Kid(old(model), b) && l.path == path + [b]
      ensures model == T.Graft(old(model), b, l.model)
      ensures fresh(levels - old(levels)) && fresh(lists - old(lists))
    {
      hide Valid;
      Unfold();
      var found: TopicLevel?;
      found, i := Find(b);
      if found == null {
        l := AddLevel(b);
      } else {
        l := found;
        assert T.Name(model.kids[i]) == l.bytes;
        assert model.kids[i := l.model] == model.kids;
      }
    }

    /** topic_filter.go:100-105: the wildcard flags and the second entry of "p/#". */
    method MarkWildcard(b: Segment, s: SessionRef, qos: byte)
      requires Valid()
      modifies this`model, this`hasSingleWildcardAsChild, this`hasMultiWildcardAsChild, subscriptions
      ensures Valid()
      ensures model == T.ParentEntry(T.Flagged(old(model), b), b, s, qos)
    {
      hide Valid;
      Unfold();
      if b == PLUS_SEG {
        hasSingleWildcardAsChild := true;
      } else if b == HASH_SEG {
        hasMultiWildcardAsChild := true;
      }
      model := T.Flagged(model, b);
      Fold();
      if b == HASH_SEG {
        assert path != [];
        CreateOrUpdateSubscription(s, qos);
      }
    }

    // ---------- walks that change the tree ----------

    /** Everything is in order except that child `i` has changed since `levels`, `lists` and `model` were set. */
    ghost predicate ValidBut(i: nat)
      reads *
    {
      && i < |children|
      && this in levels && subscriptions in lists && Rooted()
      && model == T.Level(path, subscriptions.subs, retainedMessage,
                          hasSingleWildcardAsChild, hasMultiWildcardAsChild, model.kids)
      && |model.kids| == |children|
      && (forall j :: 0 <= j < |children| ==> children[j].Valid())
      && (forall j :: 0 <= j < |children| && j != i ==>
            children[j] in levels && Owns(children[j]) && children[j].model == model.kids[j])
      && (forall j, k :: 0 <= j < k < |children| ==> Apart(children[j], children[k]))
      && this !in children[i].levels && subscriptions !in children[i].lists
      && children[i].parent == this && children[i].path == path + [children[i].bytes]
      && children[i].model.path == children[i].path && children[i] in children[i].levels
    }

    /** After a change below child `i`, this level catches up. */
    ghost method Adopt(i: nat)
      requires ValidBut(i)
      modifies this`levels, this`lists, this`model
      ensures Valid()
      ensures model == old(model).(kids := old(model).kids[i := children[i].model])
      ensures levels == old(levels) + children[i].levels && lists == old(lists) + children[i].lists
    {
      hide Valid;
      levels := levels + children[i].levels;
      lists := lists + children[i].lists;
      model := model.(kids := model.kids[i := children[i].model]);
      Fold();
    }

    ghost method AdoptModel(i: nat)
      requires ValidBut(i) && Owns(children[i]) && children[i] in levels
      modifies this`model
      ensures Valid()
      ensures model == old(model).(kids := old(model).kids[i := children[i].model])
    {
      hide Valid;
      model := model.(kids := model.kids[i := children[i].model]);
      Fold();
    }

    /** topic_filter.go:86. */
    method ParseChildren(s: SessionRef, segs: Path, qos: byte)
      requires Valid()
      modifies levels, lists
      ensures Valid()
      ensures model == T.Insert(old(model), segs, s, qos)
      ensures fresh(levels - old(levels)) && fresh(lists - old(lists))
      decreases |segs|, 0
    {
      hide Valid, T.Insert, T.Graft, T.Kid, T.Flagged, T.ParentEntry, T.Find, Subscribed;
      if |segs| == 0 {
        InsertNothing(model, s, qos);
        return;
      }
      InsertInSteps(model, segs, s, qos);
      Unfold();
      var l, i := FindOrAdd(segs[0]);
      MarkWildcard(segs[0], s, qos);
      SubscribeInChild(l, i, s, segs[1..], qos);
    }

    method SubscribeInChild(l: TopicLevel, ghost i: nat, s: SessionRef, segs: Path, qos: byte)
      requires Valid() && i < |children| && l == children[i]
      modifies levels, lists
      ensures Valid()
      ensures model == old(model).(kids := old(model).kids[i := Subscribed(old(model).kids[i], s, segs, qos)])
      ensures fresh(levels - old(levels)) && fresh(lists - old(lists))
      decreases |segs|, 2
    {
      hide Valid, Subscribed;
      Unfold();
      assert forall j :: 0 <= j < |children| && j != i ==> Apart(children[j], l);
      l.SubscribeBelow(s, segs, qos);
      l.Unfold();
      forall j | 0 <= j < |children| && j != i
        ensures children[j] in levels && Owns(children[j]) && children[j].model == model.kids[j]
             && children[j].Valid() && Apart(children[j], l)
      {
        assert old(Apart(children[j], l));
      }
      Adopt(i);
    }

    /** topic_filter.go:107-111: the walk ends here or goes on. */
    method SubscribeBelow(s: SessionRef, segs: Path, qos: byte)
      requires Valid()
      modifies levels, lists
      ensures Valid() && model.path == old(model).path
      ensures model == Subscribed(old(model), s, segs, qos)
      ensures fresh(levels - old(levels)) && fresh(lists - old(lists))
      decreases |segs|, 1
    {
      hide Valid;
      Unfold();
      if segs == [] {
        CreateOrUpdateSubscription(s, qos);
      } else {
        ParseChildren(s, segs, qos);
      }
    }

    /** topic_filter.go:78. */
    method Retain(msg: Option<Message>)
      requires Valid()
      modifies this`retainedMessage, this`model
      ensures Valid()
      ensures model == old(model).(retained := msg)
    {
      hide Valid;
      Unfold();
      retainedMessage := msg;
      model := model.(retained := msg);
      Fold();
    }

    /** topic_filter.go:114. */
    method ParseChildrenRetain(msg: Option<Message>, segs: Path)
      requires Valid() && TopicPath(segs)
      modifies levels
      ensures Valid()
      ensures model == T.Retain(old(model), segs, msg)
      ensures fresh(levels - old(levels)) && fresh(lists - old(lists))
      decreases |segs|, 0
    {
      hide Valid, T.Retain, T.Graft, T.Kid, T.Find, Retained;
      if |segs| == 0 {
        RetainNothing(model, msg);
        return;
      }
      RetainInSteps(model, segs, msg);
      Unfold();
      var l, i := FindOrAdd(segs[0]);
      RetainInChild(l, i, msg, segs[1..]);
    }

    method RetainInChild(l: TopicLevel, ghost i: nat, msg: Option<Message>, segs: Path)
      requires Valid() && i < |children| && l == children[i] && TopicPath([l.bytes] + segs)
      modifies levels
      ensures Valid()
      ensures model == old(model).(kids := old(model).kids[i := Retained(old(model).kids[i], segs, msg)])
      ensures fresh(levels - old(levels)) && fresh(lists - old(lists))
      decreases |segs|, 2
    {
      hide Valid, Retained;
      Unfold();
      assert forall j :: 0 <= j < |children| && j != i ==> Apart(children[j], l);
      assert ([l.bytes] + segs)[1..] == segs;
      l.RetainBelow(msg, segs);
      l.Unfold();
      forall j | 0 <= j < |children| && j != i
        ensures children[j] in levels && Owns(children[j]) && children[j].model == model.kids[j]
             && children[j].Valid() && Apart(children[j], l)
      {
        assert old(Apart(children[j], l));
      }
      Adopt(i);
    }

    /** topic_filter.go:127-131. */
    method RetainBelow(msg: Option<Message>, segs: Path)
      requires Valid() && TopicPath([bytes] + segs)
      modifies levels
      ensures Valid() && model.path == old(model).path
      ensures model == Retained(old(model), segs, msg)
      ensures fresh(levels - old(levels)) && fresh(lists - old(lists))
      decreases |segs|, 1
    {
      hide Valid;
      Unfold();
      assert ([bytes] + segs)[0] == bytes && ([bytes] + segs)[1..] == segs;
      if segs == [] && bytes != PLUS_SEG {
        Retain(msg);
      } else {
        ParseChildrenRetain(msg, segs);
      }
    }

    /** topic_filter.go:134. */
    method TraverseDelete(s: SessionRef, segs: Path, sessions: SessionTable) returns (success: bool)
      requires Valid()
      modifies levels`model, lists, sessions
      ensures Valid()
      ensures model == T.Delete(old(model), segs, s.id)
      ensures success <==> segs != [] && T.Holds(T.SubsAt(old(model), segs), s.id)
      ensures sessions.entries == old(sessions.entries)
      decreases |segs|, 0
    {
      hide Valid, Deleted;
      if |segs| == 0 {
        return false;
      }
      DeleteInSteps(model, segs, s.id);
      Unfold();
      var l, i := Find(segs[0]);
      if l != null {
        success := DeleteInChild(l, i, s, segs[1..], sessions);
        return;
      }
      return false;
    }

    method DeleteInChild(l: TopicLevel, ghost i: nat, s: SessionRef, segs: Path, sessions: SessionTable) returns (success: bool)
      requires Valid() && i < |children| && l == children[i]
      modifies levels`model, lists, sessions
      ensures Valid()
      ensures model == old(model).(kids := old(model).kids[i := Deleted(old(model).kids[i], segs, s.id)])
      ensures success <==> T.Holds(T.SubsAt(old(model).kids[i], segs), s.id)
      ensures sessions.entries == old(sessions.entries)
      decreases |segs|, 2
    {
      hide Valid, Deleted, T.SubsAt, T.Holds;
      Unfold();
      assert forall j :: 0 <= j < |children| && j != i ==> Apart(children[j], l);
      success := l.DeleteBelow(s, segs, sessions);
      l.Unfold();
      forall j | 0 <= j < |children| && j != i
        ensures children[j] in levels && Owns(children[j]) && children[j].model == model.kids[j]
             && children[j].Valid() && Apart(children[j], l)
      {
        assert old(Apart(children[j], l));
      }
      AdoptModel(i);
    }

    /** topic_filter.go:141-145. */
    method DeleteBelow(s: SessionRef, segs: Path, sessions: SessionTable) returns (success: bool)
      requires Valid()
      modifies levels`model, lists, sessions
      ensures Valid() && model.path == old(model).path
      ensures model == Deleted(old(model), segs, s.id)
      ensures success <==> T.Holds(T.SubsAt(old(model), segs), s.id)
      ensures sessions.entries == old(sessions.entries)
      decreases |segs|, 1
    {
      hide Valid;
      Unfold();
      if segs == [] {
        success := DeleteSubscription(s, true, sessions);
      } else {
        success := TraverseDelete(s, segs, sessions);
      }
    }

    /** topic_filter.go:151: every child loses the client's entry and is then walked in turn. */
    method TraverseDeleteAll(s: SessionRef, sessions: SessionTable)
      requires Valid()
      modifies levels`model, lists, sessions
      ensures Valid()
      ensures model == T.DropAll(old(model), s.id, s.clean, s.clean)
      ensures sessions.entries == DetachKids(old(sessions.entries), old(model).kids, s.id, s.clean, s.clean)
      decreases levels, 2
    {
      hide Valid, T.DropAll, Dropped, DetachKids, DetachUnder;
      Unfold();
      ghost var was := model;
      DetachNone(sessions.entries, s.id, s.clean, s.clean);
      for n := 0 to |children|
        invariant Valid() && |model.kids| == |children|
        invariant |was.kids| == |children|
        invariant model == was.(kids := model.kids)
        invariant forall j :: 0 <= j < n ==> model.kids[j] == Dropped(was.kids[j], s.id, s.clean, s.clean)
        invariant forall j :: n <= j < |children| ==> model.kids[j] == was.kids[j]
        invariant sessions.entries == DetachKids(old(sessions.entries), was.kids[..n], s.id, s.clean, s.clean)
      {
        DetachLast(old(sessions.entries), was.kids[..n + 1], s.id, s.clean, s.clean);
        assert was.kids[..n + 1][..n] == was.kids[..n];
        DropInChild(n, s, sessions);
      }
      assert was.kids[..|children|] == was.kids;
      DropAllIsDropped(was, model.kids, s.id, s.clean, s.clean);
    }

    method DropInChild(i: nat, s: SessionRef, sessions: SessionTable)
      requires Valid() && i < |children|
      modifies levels`model, lists, sessions
      ensures Valid()
      ensures model == old(model).(kids := old(model).kids[i := Dropped(old(model).kids[i], s.id, s.clean, s.clean)])
      ensures sessions.entries == DetachUnder(old(sessions.entries), old(model).kids[i], s.id, s.clean, s.clean)
      decreases levels, 1
    {
      hide Valid, Dropped, DetachUnder;
      Unfold();
      var l := children[i];
      assert forall j :: 0 <= j < |children| && j != i ==> Apart(children[j], l);
      l.DropFrom(s, false, sessions);
      l.Unfold();
      forall j | 0 <= j < |children| && j != i
        ensures children[j] in levels && Owns(children[j]) && children[j].model == model.kids[j]
             && children[j].Valid() && Apart(children[j], l)
      {
        assert old(Apart(children[j], l));
      }
      AdoptModel(i);
    }

    /** broker.go:278-279, topic_filter.go:153-154: one level, then everything below it. */
    method DropFrom(s: SessionRef, graceful: bool, sessions: SessionTable)
      requires Valid()
      modifies levels`model, lists, sessions
      ensures Valid() && model.path == old(model).path
      ensures model == Dropped(old(model), s.id, graceful || s.clean, s.clean)
      ensures sessions.entries == DetachUnder(old(sessions.entries), old(model), s.id, graceful || s.clean, s.clean)
      decreases levels, 3
    {
      hide Valid;
      Unfold();
      ghost var was := model;
      var _ := DeleteSubscription(s, graceful, sessions);
      DropAllOfKids(was, model.subs, s.id, s.clean);
      TraverseDeleteAll(s, sessions);
    }

    // ---------- walks that only read ----------

    /** topic_filter.go:167, with its early exit. */
    method FindAll(b: Segment) returns (matches: seq<TopicLevel>)
      requires Valid() && T.WellFormed(model) && b != PLUS_SEG && b != HASH_SEG
      ensures Mirror(matches, T.FindAll(model.kids, b))
      ensures forall m :: m in matches ==> m in children
    {
      hide Valid, T.FindAll, T.HasKid, T.WellFormed;
      Unfold();
      FindAllNone(b);
      matches := [];
      var targetFound, singleWildcardFound, multiWildcardFound := false, false, false;
      for n := 0 to |children|
        invariant Mirror(matches, T.FindAll(model.kids[..n], b))
        invariant forall m :: m in matches ==> m in children
        invariant targetFound <==> T.HasKid(model.kids[..n], b)
        invariant singleWildcardFound <==> T.HasKid(model.kids[..n], PLUS_SEG)
        invariant multiWildcardFound <==> T.HasKid(model.kids[..n], HASH_SEG)
      {
        var f := children[n];
        ghost var before := matches;
        FindAllStep(model, n, b);
        assert T.Name(model.kids[n]) == f.bytes;
        if !targetFound && f.bytes == b {
          matches := matches + [f];
          targetFound := true;
        }
        if hasSingleWildcardAsChild && !singleWildcardFound && f.bytes == PLUS_SEG {
          matches := matches + [f];
          singleWildcardFound := true;
        }
        if hasMultiWildcardAsChild && !multiWildcardFound && f.bytes == HASH_SEG {
          matches := matches + [f];
          multiWildcardFound := true;
        }
        assert matches == before + if T.HitBy(model.kids[n], b) then [f] else [];
        if targetFound && (!hasSingleWildcardAsChild || singleWildcardFound) && (!hasMultiWildcardAsChild || multiWildcardFound) {
          NoHitAfterAll(model, n + 1, b);
          return;
        }
      }
      assert model.kids[..|children|] == model.kids;
    }

    /** topic_filter.go:59. The slice that the matches are appended to goes in as `matches` and comes out as `out`. */
    method Match(segs: Path, matches: seq<TopicLevel>) returns (out: seq<TopicLevel>)
      requires Valid() && T.WellFormed(model) && TopicPath(segs)
      ensures Extends(out, matches, T.Match(model, segs), levels)
      decreases |segs|
    {
      hide Valid, Extends, T.WellFormed, T.Match, T.MatchAll, T.FindAll;
      Unfold();
      UnfoldMatch(model, segs);
      if ((|subscriptions.subs| != 0 || |children| == 0) && |segs| == 0)
         || (bytes == PLUS_SEG && |children| == 0 && |segs| == 0) || bytes == HASH_SEG {
        ExtendByOne(matches, this, levels);
        return matches + [this];
      }
      out := matches;
      ExtendByNone(matches, levels);
      if |children| != 0 && |segs| != 0 {
        TopicSegmentsApart(segs);
        var hits := FindAll(segs[0]);
        ghost var trees := T.FindAll(model.kids, segs[0]);
        KidsWellFormed(model);
        MatchAllNone(segs[1..]);
        for n := 0 to |hits|
          invariant Extends(out, matches, T.MatchAll(trees[..n], segs[1..]), levels)
        {
          ghost var before := out;
          var hit := hits[n];
          assert hit in children;
          out := hit.Match(segs[1..], out);
          MatchAllStep(trees, n, segs[1..]);
          ExtendTwice(out, before, matches, T.MatchAll(trees[..n], segs[1..]), T.Match(hit.model, segs[1..]), levels, hit.levels);
        }
        assert trees[..|hits|] == trees;
      }
    }

    /** topic_filter.go:33. */
    method Reverse(segs: Path, matches: seq<TopicLevel>) returns (out: seq<TopicLevel>)
      requires Valid()
      ensures Extends(out, matches, T.Reverse(model, segs), levels)
      decreases levels
    {
      hide Valid, Extends, T.Reverse, T.ReverseAll;
      Unfold();
      UnfoldReverse(model, segs);
      out := matches;
      ExtendByNone(matches, levels);
      ExtendByOne(matches, this, levels);
      if |segs| == 0 {
        if retainedMessage != None {
          out := out + [this];
        }
        return;
      }
      var isSingleWildcard := segs[0] == PLUS_SEG;
      var isMultiWildcard := segs[0] == HASH_SEG;
      ghost var first: seq<T.Tree> := [];
      if isMultiWildcard && bytes != HASH_SEG && retainedMessage != None {
        out := out + [this];
        first := [model];
      }
      ReverseAllNone(segs);
      assert first + [] == first;
      for n := 0 to |children|
        invariant Extends(out, matches, first + T.ReverseAll(model.kids[..n], segs), levels)
      {
        var child := children[n];
        ghost var before := out;
        ReverseAllStep(model.kids, n, segs);
        assert T.Name(model.kids[n]) == child.bytes;
        ghost var more: seq<T.Tree> := [];
        if isMultiWildcard {
          out := child.Reverse([HASH_SEG], out);
          more := T.Reverse(child.model, [HASH_SEG]);
        } else if isSingleWildcard || segs[0] == child.bytes {
          out := child.Reverse(segs[1..], out);
          more := T.Reverse(child.model, segs[1..]);
        } else {
          ExtendByNone(before, child.levels);
        }
        ExtendTwice(out, before, matches, first + T.ReverseAll(model.kids[..n], segs), more, levels, child.levels);
        AppendLater(first, T.ReverseAll(model.kids[..n], segs), more);
      }
      assert model.kids[..|children|] == model.kids;
    }
  }

  /** `out` is `base` followed by nodes for `trees`, all of them among `within`. */
  ghost predicate Extends(out: seq<TopicLevel>, base: seq<TopicLevel>, trees: seq<T.Tree>, within: set<TopicLevel>)
    reads *
  {
    && |out| == |base| + |trees|
    && out[..|base|] == base
    && forall k :: |base| <= k < |out| ==>
         out[k] in within && out[k].Valid() && out[k].model == trees[k - |base|]
  }

  lemma AppendLater(a: seq<T.Tree>, b: seq<T.Tree>, c: seq<T.Tree>)
    ensures (a + b) + c == a + (b + c)
  {
  }

  lemma ExtendByNone(base: seq<TopicLevel>, within: set<TopicLevel>)
    ensures Extends(base, base, [], within)
  {
  }

  lemma ExtendByOne(base: seq<TopicLevel>, l: TopicLevel, within: set<TopicLevel>)
    requires l.Valid() && l in within
    ensures Extends(base + [l], base, [l.model], within)
  {
  }

  lemma ExtendTwice(c: seq<TopicLevel>, b: seq<TopicLevel>, a: seq<TopicLevel>, t1: seq<T.Tree>, t2: seq<T.Tree>,
                    within: set<TopicLevel>, inner: set<TopicLevel>)
    requires Extends(b, a, t1, within) && Extends(c, b, t2, inner) && inner <= within
    ensures Extends(c, a, t1 + t2, within)
  {
    assert c[..|a|] == b[..|a|];
    forall k | |a| <= k < |c| ensures c[k] in within && c[k].Valid() && c[k].model == (t1 + t2)[k - |a|] {
      assert k < |b| ==> c[k] == c[..|b|][k] == b[k];
    }
  }

  lemma UnfoldMatch(t: T.Tree, segs: Path)
    ensures T.Match(t, segs) ==
            if (segs == [] && (t.subs != [] || t.kids == [])) || T.Name(t) == HASH_SEG then [t]
            else if segs == [] || t.kids == [] then []
            else T.MatchAll(T.FindAll(t.kids, segs[0]), segs[1..])
  {
  }

  lemma MatchAllNone(segs: Path)
    ensures T.MatchAll([], segs) == []
  {
  }

  lemma MatchAllStep(trees: seq<T.Tree>, n: nat, segs: Path)
    requires n < |trees|
    ensures T.MatchAll(trees[..n + 1], segs) == T.MatchAll(trees[..n], segs) + T.Match(trees[n], segs)
  {
    assert trees[..n + 1][..n] == trees[..n];
  }

  lemma KidsWellFormed(t: T.Tree)
    requires T.WellFormed(t)
    ensures forall i :: 0 <= i < |t.kids| ==> T.WellFormed(t.kids[i])
  {
  }

  lemma TopicSegmentsApart(segs: Path)
    requires TopicPath(segs) && segs != []
    ensures segs[0] != PLUS_SEG && segs[0] != HASH_SEG && TopicPath(segs[1..])
  {
    assert TopicSegment(segs[0]);
    assert PLUS in PLUS_SEG && HASH in HASH_SEG;
  }

  lemma UnfoldReverse(t: T.Tree, segs: Path)
    ensures T.Reverse(t, segs) ==
            if segs == [] then (if t.retained.Some? then [t] else [])
            else
              (if segs[0] == HASH_SEG && T.Name(t) != HASH_SEG && t.retained.Some? then [t] else [])
              + T.ReverseAll(t.kids, segs)
  {
  }

  lemma ReverseAllNone(segs: Path)
    requires segs != []
    ensures T.ReverseAll([], segs) == []
  {
  }

  lemma ReverseAllStep(kids: seq<T.Tree>, n: nat, segs: Path)
    requires n < |kids| && segs != []
    ensures T.ReverseAll(kids[..n + 1], segs) == T.ReverseAll(kids[..n], segs) +
            if segs[0] == HASH_SEG then T.Reverse(kids[n], [HASH_SEG])
            else if segs[0] == PLUS_SEG || segs[0] == T.Name(kids[n]) then T.Reverse(kids[n], segs[1..])
            else []
  {
    assert kids[..n + 1][..n] == kids[..n];
  }

  /** The nodes stand for these trees. */
  ghost predicate Mirror(nodes: seq<TopicLevel>, trees: seq<T.Tree>)
    reads nodes
  {
    |nodes| == |trees| && forall i :: 0 <= i < |nodes| ==> nodes[i].model == trees[i]
  }

  lemma FindAllNone(b: Segment)
    ensures T.FindAll([], b) == [] && forall x :: !T.HasKid([], x)
  {
  }

  lemma FindAllStep(t: T.Tree, n: nat, b: Segment)
    requires T.WellFormed(t) && n < |t.kids|
    ensures T.FindAll(t.kids[..n + 1], b) == T.FindAll(t.kids[..n], b) + if T.HitBy(t.kids[n], b) then [t.kids[n]] else []
    ensures forall x :: T.HasKid(t.kids[..n + 1], x) <==> T.HasKid(t.kids[..n], x) || T.Name(t.kids[n]) == x
    ensures !T.HasKid(t.kids[..n], T.Name(t.kids[n]))
    ensures T.Name(t.kids[n]) == PLUS_SEG ==> t.plus
    ensures T.Name(t.kids[n]) == HASH_SEG ==> t.hash
  {
    var a := t.kids[..n + 1];
    assert a[..n] == t.kids[..n] && a[n] == t.kids[n];
    forall x ensures T.HasKid(a, x) <==> T.HasKid(t.kids[..n], x) || T.Name(t.kids[n]) == x {
      if T.HasKid(t.kids[..n], x) {
        var i :| 0 <= i < n && T.Name(t.kids[..n][i]) == x;
        assert T.Name(a[i]) == x;
      }
      assert T.Name(a[n]) == T.Name(t.kids[n]);
      if T.HasKid(a, x) && T.Name(t.kids[n]) != x {
        var i :| 0 <= i < |a| && T.Name(a[i]) == x;
        assert T.Name(t.kids[..n][i]) == x;
      }
    }
  }

  /** When the segment and every wildcard that the flags announce have been seen,
      no later sibling can be a hit: names are distinct and the flags are right. */
  lemma NoHitAfterAll(t: T.Tree, n: nat, b: Segment)
    requires T.WellFormed(t) && n <= |t.kids|
    requires T.HasKid(t.kids[..n], b)
    requires t.plus ==> T.HasKid(t.kids[..n], PLUS_SEG)
    requires t.hash ==> T.HasKid(t.kids[..n], HASH_SEG)
    ensures T.FindAll(t.kids, b) == T.FindAll(t.kids[..n], b)
  {
    forall j | n <= j < |t.kids| ensures !T.HitBy(t.kids[j], b) {
      NotSeen(t.kids, n, j);
      assert T.Name(t.kids[j]) == PLUS_SEG ==> t.plus;
      assert T.Name(t.kids[j]) == HASH_SEG ==> t.hash;
    }
    Q.FindAllStopsEarly(t.kids, n, b);
  }

  lemma NotSeen(kids: seq<T.Tree>, n: nat, j: nat)
    requires T.DistinctNames(kids) && n <= j < |kids|
    ensures !T.HasKid(kids[..n], T.Name(kids[j]))
  {
  }

  function Retained(t: T.Tree, segs: Path, msg: Option<Message>): T.Tree {
    if segs == [] then t.(retained := msg) else T.Retain(t, segs, msg)
  }

  lemma RetainNothing(t: T.Tree, msg: Option<Message>)
    ensures T.Retain(t, [], msg) == t
  {
  }

  lemma RetainInSteps(t: T.Tree, segs: Path, msg: Option<Message>)
    requires segs != []
    ensures var b, i := segs[0], T.Find(t.kids, segs[0]);
            var m := T.Graft(t, b, T.Kid(t, b));
            && i < |m.kids|
            && T.Retain(t, segs, msg) == m.(kids := m.kids[i := Retained(m.kids[i], segs[1..], msg)])
  {
  }

  function Deleted(t: T.Tree, segs: Path, id: ClientId): T.Tree {
    if segs == [] then t.(subs := T.Remove(t.subs, id)) else T.Delete(t, segs, id)
  }

  lemma DeleteInSteps(t: T.Tree, segs: Path, id: ClientId)
    requires segs != []
    ensures var i := T.Find(t.kids, segs[0]);
            if i == |t.kids| then T.Delete(t, segs, id) == t && T.SubsAt(t, segs) == []
            else
              && T.Delete(t, segs, id) == t.(kids := t.kids[i := Deleted(t.kids[i], segs[1..], id)])
              && T.SubsAt(t, segs) == T.SubsAt(t.kids[i], segs[1..])
  {
  }

  /** A level after DeleteSubscription, when `top`, and the walk below it. */
  function Dropped(t: T.Tree, id: ClientId, top: bool, deep: bool): T.Tree {
    var k := T.DropAll(t, id, deep, deep);
    if top then k.(subs := T.Remove(k.subs, id)) else k
  }

  lemma DropAllIsDropped(t: T.Tree, kids: seq<T.Tree>, id: ClientId, top: bool, deep: bool)
    requires |kids| == |t.kids|
    requires forall i :: 0 <= i < |kids| ==> kids[i] == Dropped(t.kids[i], id, top, deep)
    ensures t.(kids := kids) == T.DropAll(t, id, top, deep)
  {
    assert kids == T.DropAll(t, id, top, deep).kids;
  }

  lemma DropAllOfKids(t: T.Tree, subs: seq<Subscription>, id: ClientId, deep: bool)
    ensures T.DropAll(t.(subs := subs), id, deep, deep) == T.DropAll(t, id, deep, deep).(subs := subs)
  {
    assert T.DropAll(t.(subs := subs), id, deep, deep).kids == T.DropAll(t, id, deep, deep).kids;
  }

  lemma DetachNone(table: seq<SessionState>, id: ClientId, top: bool, deep: bool)
    ensures DetachKids(table, [], id, top, deep) == table
  {
  }

  lemma DetachLast(table: seq<SessionState>, kids: seq<T.Tree>, id: ClientId, top: bool, deep: bool)
    requires kids != []
    ensures DetachKids(table, kids, id, top, deep) ==
            DetachUnder(DetachKids(table, kids[..|kids| - 1], id, top, deep), kids[|kids| - 1], id, top, deep)
  {
  }

  function Subscribed(t: T.Tree, s: SessionRef, segs: Path, qos: byte): T.Tree {
    if segs == [] then t.(subs := T.Upsert(t.subs, s, qos)) else T.Insert(t, segs, s, qos)
  }

  lemma InsertNothing(t: T.Tree, s: SessionRef, qos: byte)
    ensures T.Insert(t, [], s, qos) == t
  {
  }

  /** Insert in the order in which the code goes about it: child, flags and second entry, then below. */
  lemma InsertInSteps(t: T.Tree, segs: Path, s: SessionRef, qos: byte)
    requires segs != []
    ensures var b, i := segs[0], T.Find(t.kids, segs[0]);
            var m := T.ParentEntry(T.Flagged(T.Graft(t, b, T.Kid(t, b)), b), b, s, qos);
            && i < |m.kids|
            && T.Insert(t, segs, s, qos) == m.(kids := m.kids[i := Subscribed(m.kids[i], s, segs[1..], qos)])
  {
  }

  lemma {:induction false} JoinExtended(p: Path, b: Segment)
    requires p != []
    ensures Join(p + [b]) == Join(p) + [SLASH] + b
  {
    if |p| > 1 {
      JoinExtended(p[1..], b);
      assert (p + [b])[1..] == p[1..] + [b];
    } else {
      assert (p + [b])[1..] == [b];
    }
  }
}

/** The topic index as a value. A node carries the path from the root, the root itself
    (topicStorage) being the node with the empty path. */
module TopicTree {
  import opened Base
  import opened Filters

  datatype Tree = Level(path: Path, subs: seq<Subscription>, retained: Option<Message>,
                        plus: bool, hash: bool, kids: seq<Tree>)

  function Name(t: Tree): Segment {
    if t.path == [] then [] else t.path[|t.path| - 1]
  }

  function NewLevel(path: Path): Tree {
    Level(path, [], None, false, false, [])
  }

  const EMPTY_TREE: Tree := NewLevel([])

  // ---------- subscription lists ----------

  /** The first entry of client `id`, or the length of the list. */
  function IndexOf(subs: seq<Subscription>, id: ClientId): (i: nat)
    ensures i <= |subs|
    ensures i < |subs| ==> subs[i].session.id == id
    ensures forall j :: 0 <= j < i ==> subs[j].session.id != id
  {
    if subs == [] || subs[0].session.id == id then 0 else 1 + IndexOf(subs[1..], id)
  }

  predicate Holds(subs: seq<Subscription>, id: ClientId) {
    IndexOf(subs, id) < |subs|
  }

  predicate DistinctIds(subs: seq<Subscription>) {
    forall i, j :: 0 <= i < j < |subs| ==> subs[i].session.id != subs[j].session.id
  }

  /** createOrUpdateSubscription: the client's entry is overwritten in place, or a new one goes last. */
  function Upsert(subs: seq<Subscription>, s: SessionRef, qos: byte): seq<Subscription> {
    var i := IndexOf(subs, s.id);
    if i < |subs| then subs[i := Subscription(s, qos)] else subs + [Subscription(s, qos)]
  }

  function Remove(subs: seq<Subscription>, id: ClientId): seq<Subscription> {
    var i := IndexOf(subs, id);
    if i < |subs| then subs[..i] + subs[i + 1..] else subs
  }

  lemma HoldsByElement(subs: seq<Subscription>, id: ClientId)
    ensures Holds(subs, id) <==> exists i :: 0 <= i < |subs| && subs[i].session.id == id
  {
  }

  lemma UpsertProps(subs: seq<Subscription>, s: SessionRef, qos: byte)
    requires DistinctIds(subs)
    ensures DistinctIds(Upsert(subs, s, qos))
    ensures forall id :: Holds(Upsert(subs, s, qos), id) <==> id == s.id || Holds(subs, id)
  {
    var r := Upsert(subs, s, qos);
    forall id ensures Holds(r, id) <==> id == s.id || Holds(subs, id) {
      HoldsByElement(r, id);
      HoldsByElement(subs, id);
      if Holds(subs, id) {
        var i := IndexOf(subs, id);
        assert r[i].session.id == id;
      }
      if id == s.id {
        assert r[IndexOf(subs, id)].session.id == id;
      }
    }
  }

  lemma RemoveProps(subs: seq<Subscription>, id: ClientId)
    requires DistinctIds(subs)
    ensures DistinctIds(Remove(subs, id))
    ensures forall c :: Holds(Remove(subs, id), c) <==> c != id && Holds(subs, c)
  {
    var r := Remove(subs, id);
    var k := IndexOf(subs, id);
    forall c ensures Holds(r, c) <==> c != id && Holds(subs, c) {
      HoldsByElement(r, c);
      HoldsByElement(subs, c);
      if c != id && Holds(subs, c) {
        var i := IndexOf(subs, c);
        assert r[if i < k then i else i - 1].session.id == c;
      }
    }
  }

  /** Afterwards the client's one entry is the new one; the entries of others are the same, in their order. */
  lemma UpsertEntries(subs: seq<Subscription>, s: SessionRef, qos: byte, i: nat)
    requires DistinctIds(subs) && i < |Upsert(subs, s, qos)|
    ensures Upsert(subs, s, qos)[i].session.id == s.id ==> Upsert(subs, s, qos)[i] == Subscription(s, qos)
    ensures Upsert(subs, s, qos)[i].session.id != s.id ==> i < |subs| && Upsert(subs, s, qos)[i] == subs[i]
    ensures |subs| <= |Upsert(subs, s, qos)| <= |subs| + 1
  {
    if i < |subs| && i != IndexOf(subs, s.id) && IndexOf(subs, s.id) == |subs| {
      assert subs[i].session.id != s.id;
    }
  }

  /** Without the client's entry, the entries of others are the same, in their order. */
  lemma RemoveEntries(subs: seq<Subscription>, id: ClientId, i: nat)
    requires DistinctIds(subs) && i < |subs| && subs[i].session.id != id
    ensures var j := if Holds(subs, id) && IndexOf(subs, id) < i then i - 1 else i;
            j < |Remove(subs, id)| && Remove(subs, id)[j] == subs[i]
  {
    hide DistinctIds, IndexOf;
    var x := IndexOf(subs, id);
    if x < |subs| {
      assert x != i;
      Others(subs, x, i);
    }
  }

  lemma Others(subs: seq<Subscription>, x: nat, i: nat)
    requires x < |subs| && i < |subs| && i != x
    ensures var j := if x < i then i - 1 else i;
            j < |subs[..x] + subs[x + 1..]| && (subs[..x] + subs[x + 1..])[j] == subs[i]
  {
  }

  // ---------- updates, one per recursive method of topicLevel ----------

  /** topicLevel.find: the first child with that name, or the number of children. */
  function Find(kids: seq<Tree>, b: Segment): (i: nat)
    ensures i <= |kids|
    ensures i < |kids| ==> Name(kids[i]) == b
    ensures forall j :: 0 <= j < i ==> Name(kids[j]) != b
  {
    if kids == [] || Name(kids[0]) == b then 0 else 1 + Find(kids[1..], b)
  }

  function Kid(t: Tree, b: Segment): Tree {
    var i := Find(t.kids, b);
    if i < |t.kids| then t.kids[i] else NewLevel(t.path + [b])
  }

  /** `t` with `k` in place of its child `b`, or after all children when there is none. */
  function Graft(t: Tree, b: Segment, k: Tree): Tree {
    var i := Find(t.kids, b);
    t.(kids := if i < |t.kids| then t.kids[i := k] else t.kids + [k])
  }

  function Flagged(t: Tree, b: Segment): Tree {
    t.(plus := t.plus || b == PLUS_SEG, hash := t.hash || b == HASH_SEG)
  }

  /** The second entry of "p/#", on "p"; the root takes none. */
  function ParentEntry(t: Tree, b: Segment, s: SessionRef, qos: byte): Tree {
    if b == HASH_SEG && t.path != [] then t.(subs := Upsert(t.subs, s, qos)) else t
  }

  /** Subscribe and parseChildren. */
  function Insert(t: Tree, segs: Path, s: SessionRef, qos: byte): (r: Tree)
    ensures r.path == t.path && r.retained == t.retained
    decreases |segs|
  {
    if segs == [] then t
    else
      var k := Kid(t, segs[0]);
      var k' := if |segs| == 1 then k.(subs := Upsert(k.subs, s, qos)) else Insert(k, segs[1..], s, qos);
      ParentEntry(Flagged(Graft(t, segs[0], k'), segs[0]), segs[0], s, qos)
  }

  /** Retain and parseChildrenRetain, for a path without wildcards. */
  function Retain(t: Tree, segs: Path, msg: Option<Message>): (r: Tree)
    ensures r.path == t.path && r.subs == t.subs
    decreases |segs|
  {
    if segs == [] then t
    else
      var k := Kid(t, segs[0]);
      Graft(t, segs[0], if |segs| == 1 then k.(retained := msg) else Retain(k, segs[1..], msg))
  }

  /** Unsubscribe and traverseDelete. */
  function Delete(t: Tree, segs: Path, id: ClientId): (r: Tree)
    ensures r.path == t.path && r.retained == t.retained && r.subs == t.subs
    decreases |segs|
  {
    if segs == [] || Find(t.kids, segs[0]) == |t.kids| then t
    else
      var k := Kid(t, segs[0]);
      Graft(t, segs[0], if |segs| == 1 then k.(subs := Remove(k.subs, id)) else Delete(k, segs[1..], id))
  }

  /** UnsubscribeAll and traverseDeleteAll: a client's entries go below the root when `top`,
      and further down when `deep`. */
  function DropAll(t: Tree, id: ClientId, top: bool, deep: bool): (r: Tree)
    ensures r.path == t.path && r.retained == t.retained && r.subs == t.subs
  {
    t.(kids := seq(|t.kids|, i requires 0 <= i < |t.kids| =>
      var k := DropAll(t.kids[i], id, deep, deep);
      if top then k.(subs := Remove(k.subs, id)) else k))
  }

  // ---------- lookups ----------

  predicate HitBy(k: Tree, b: Segment) {
    Name(k) == b || Name(k) == PLUS_SEG || Name(k) == HASH_SEG
  }

  /** The children a topic level can continue in, in their order. */
  function FindAll(kids: seq<Tree>, b: Segment): seq<Tree> {
    if kids == [] then []
    else
      var n := |kids| - 1;
      FindAll(kids[..n], b) + if HitBy(kids[n], b) then [kids[n]] else []
  }

  /** topicLevel.match: the nodes taken by a topic, in the order they are found. */
  function Match(t: Tree, segs: Path): seq<Tree>
    decreases |segs|, 0
  {
    if (segs == [] && (t.subs != [] || t.kids == [])) || Name(t) == HASH_SEG then [t]
    else if segs == [] then []
    else MatchAll(FindAll(t.kids, segs[0]), segs[1..])
  }

  function MatchAll(hits: seq<Tree>, segs: Path): seq<Tree>
    decreases |segs|, 1 + |hits|
  {
    if hits == [] then []
    else
      var n := |hits| - 1;
      MatchAll(hits[..n], segs) + Match(hits[n], segs)
  }

  /** topicLevel.reverse: the nodes with a retained message that a filter selects. */
  function Reverse(t: Tree, segs: Path): seq<Tree>
    decreases t, 1
  {
    if segs == [] then (if t.retained.Some? then [t] else [])
    else
      (if segs[0] == HASH_SEG && Name(t) != HASH_SEG && t.retained.Some? then [t] else [])
      + ReverseAll(t.kids, segs)
  }

  function ReverseAll(kids: seq<Tree>, segs: Path): seq<Tree>
    requires segs != []
    decreases kids, 0
  {
    if kids == [] then []
    else
      var n := |kids| - 1;
      ReverseAll(kids[..n], segs) + if Selected(segs, kids[n]) then Reverse(kids[n], Rest(segs)) else []
  }

  predicate Selected(segs: Path, k: Tree) {
    segs != [] && (segs[0] == HASH_SEG || segs[0] == PLUS_SEG || segs[0] == Name(k))
  }

  /** What a filter becomes one level further down: '#' stays. */
  function Rest(segs: Path): Path
    requires segs != []
  {
    if segs[0] == HASH_SEG then [HASH_SEG] else segs[1..]
  }

  /** The node reached from `t` by a relative path. */
  function At(t: Tree, p: Path): Option<Tree>
    decreases |p|
  {
    if p == [] then Some(t)
    else
      var i := Find(t.kids, p[0]);
      if i < |t.kids| then At(t.kids[i], p[1..]) else None
  }

  /** The index as a flat map from path to entries and retained message. */
  function SubsAt(t: Tree, p: Path): seq<Subscription> {
    match At(t, p) case Some(n) => n.subs case None => []
  }

  function RetainedAt(t: Tree, p: Path): Option<Message> {
    match At(t, p) case Some(n) => n.retained case None => None
  }

  // ---------- the representation invariant ----------

  predicate HasKid(kids: seq<Tree>, b: Segment) {
    exists i :: 0 <= i < |kids| && Name(kids[i]) == b
  }

  predicate DistinctNames(kids: seq<Tree>) {
    forall i, j :: 0 <= i < j < |kids| ==> Name(kids[i]) != Name(kids[j])
  }

  ghost predicate WellFormed(t: Tree) {
    && NoSlash(t.path)
    && DistinctIds(t.subs)
    && (t.retained.Some? ==> TopicPath(t.path))
    && (Name(t) == HASH_SEG ==> t.kids == [])
    && DistinctNames(t.kids)
    && (t.plus <==> HasKid(t.kids, PLUS_SEG))
    && (t.hash <==> HasKid(t.kids, HASH_SEG))
    && forall i :: 0 <= i < |t.kids| ==> t.kids[i].path == t.path + [Name(t.kids[i])] && WellFormed(t.kids[i])
  }
}

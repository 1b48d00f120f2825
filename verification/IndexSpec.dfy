/** The index against what MQTT 3.1.1 says a broker owes its clients: a history of operations on the
    one hand, the tree that they build on the other. */
module IndexSpec {
  import opened Base
  import opened Filters
  import opened Matching
  import opened TopicTree
  import opened TreeUpdates
  import opened TreeQueries

  datatype Op =
    | Subscribe(s: SessionRef, filter: Bytes, qos: byte)
    | Unsubscribe(s: SessionRef, filter: Bytes)
    | UnsubscribeAll(s: SessionRef, graceful: bool)
    | Retain(msg: Option<Message>, topic: Bytes)
    | Begin(client: ClientId, clean: bool)

  /** broker.go:205-309, as updates of the tree. A CONNECT leaves it alone: of what a client held before,
      a clean one deletes the stored session only (client.go:341-342). */
  function Apply(root: Tree, op: Op): Tree {
    match op
    case Subscribe(s, f, qos) => if ValidFilterName(f) then Insert(root, Split(f), s, qos) else root
    case Unsubscribe(s, f) => if ValidFilterName(f) then Delete(root, Split(f), s.id) else root
    case UnsubscribeAll(s, graceful) => DropAll(root, s.id, graceful || s.clean, s.clean)
    case Retain(msg, t) => if ValidTopicName(t) then TopicTree.Retain(root, Split(t), msg) else root
    case Begin(_, _) => root
  }

  function Run(ops: seq<Op>): Tree {
    if ops == [] then EMPTY_TREE else Apply(Run(ops[..|ops| - 1]), ops[|ops| - 1])
  }

  // ---------- the specification: who holds which filter, which message each topic retains ----------

  datatype History = History(held: map<ClientId, set<Path>>, retained: map<Path, Message>)

  function HeldBy(h: History, c: ClientId): set<Path> {
    if c in h.held then h.held[c] else {}
  }

  /** A clean session's subscriptions end with the connection, a persistent session's do not, and a clean
      CONNECT ends all that were there (section 3.1.2.4 of MQTT 3.1.1). */
  function Record(h: History, op: Op): History {
    match op
    case Subscribe(s, f, _) =>
      if ValidFilterName(f) then h.(held := h.held[s.id := HeldBy(h, s.id) + {Split(f)}]) else h
    case Unsubscribe(s, f) =>
      if ValidFilterName(f) then h.(held := h.held[s.id := HeldBy(h, s.id) - {Split(f)}]) else h
    case UnsubscribeAll(s, _) => if s.clean then h.(held := h.held[s.id := {}]) else h
    case Retain(msg, t) =>
      if !ValidTopicName(t) then h
      else if msg.Some? then h.(retained := h.retained[Split(t) := msg.value])
      else h.(retained := h.retained - {Split(t)})
    case Begin(c, clean) => if clean then h.(held := h.held[c := {}]) else h
  }

  function Recorded(ops: seq<Op>): History {
    if ops == [] then History(map[], map[]) else Record(Recorded(ops[..|ops| - 1]), ops[|ops| - 1])
  }

  predicate ValidPath(f: Path) {
    f != [] && NoSlash(f) && ValidSegments(f)
  }

  ghost predicate HistoryOk(h: History) {
    && (forall c, f :: f in HeldBy(h, c) ==> ValidPath(f))
    && (forall p :: p in h.retained ==> p != [] && NoSlash(p) && TopicPath(p))
  }

  ghost predicate RootOk(root: Tree) {
    WellFormed(root) && root.path == [] && root.subs == [] && root.retained == None
  }

  /** The index holds a client on a node exactly when the client holds the node's filter,
      or that filter followed by "/#". */
  ghost predicate InSync(root: Tree, h: History) {
    forall p: Path, c: ClientId :: p != [] ==> (Holds(SubsAt(root, p), c) <==> Expected(h, p, c))
  }

  predicate Expected(h: History, p: Path, c: ClientId) {
    p in HeldBy(h, c) || p + [HASH_SEG] in HeldBy(h, c)
  }

  ghost predicate RetainedInSync(root: Tree, h: History) {
    forall p: Path :: RetainedAt(root, p) == if p in h.retained then Some(h.retained[p]) else None
  }

  // ---------- the invariant over every run ----------

  lemma SplitIsValidPath(f: Bytes)
    requires ValidFilterName(f)
    ensures ValidPath(Split(f)) && HashOnlyLast(Split(f))
  {
    SplitHasNoSlash(f);
    ValidIsHashOnlyLast(Split(f));
  }

  lemma SplitIsTopicPath(t: Bytes)
    requires ValidTopicName(t)
    ensures TopicPath(Split(t)) && NoSlash(Split(t))
  {
    SplitHasNoSlash(t);
    TopicBySegments(t);
  }

  lemma ApplyKeepsRootOk(root: Tree, op: Op)
    requires RootOk(root)
    ensures RootOk(Apply(root, op))
  {
    match op {
      case Subscribe(s, f, qos) =>
        if ValidFilterName(f) {
          SplitIsValidPath(f);
          InsertKeepsWellFormed(root, Split(f), s, qos);
          InsertFlatHere(root, Split(f), s, qos);
        }
      case Unsubscribe(s, f) =>
        SplitHasNoSlash(f);
        DeleteKeepsWellFormed(root, Split(f), s.id);
      case UnsubscribeAll(s, graceful) =>
        DropAllKeepsWellFormed(root, s.id, graceful || s.clean, s.clean);
      case Retain(msg, t) =>
        if ValidTopicName(t) {
          SplitIsTopicPath(t);
          RetainKeepsWellFormed(root, Split(t), msg);
        }
      case Begin(_, _) =>
    }
  }

  /** acyclic and single-parented by construction; sibling names, wildcard flags, leaves under '#',
      retained paths and session ids by WellFormed */
  lemma {:induction false} EveryRunIsWellFormed(ops: seq<Op>)
    ensures RootOk(Run(ops)) && HistoryOk(Recorded(ops))
  {
    if ops != [] {
      EveryRunIsWellFormed(ops[..|ops| - 1]);
      ApplyKeepsRootOk(Run(ops[..|ops| - 1]), ops[|ops| - 1]);
      RecordKeepsHistoryOk(Recorded(ops[..|ops| - 1]), ops[|ops| - 1]);
    } else {
      assert HeldBy(History(map[], map[]), "") == {};
    }
  }

  lemma RecordKeepsHistoryOk(h: History, op: Op)
    requires HistoryOk(h)
    ensures HistoryOk(Record(h, op))
  {
    match op {
      case Subscribe(_, f, _) => if ValidFilterName(f) { SplitIsValidPath(f); }
      case Retain(_, t) => if ValidTopicName(t) { SplitIsTopicPath(t); }
      case _ =>
    }
    var h' := Record(h, op);
    forall c, f | f in HeldBy(h', c) ensures ValidPath(f) {
      if !(f in HeldBy(h, c)) {
        assert op.Subscribe? && f == Split(op.filter);
      }
    }
  }

  // ---------- subscriptions: exactly when an operation keeps the index in step ----------

  /** When the code does what the specification says. Unsubscribe deletes one node's entry, although
      "p/#" had put a second one on "p"; a graceful disconnect deletes on the first level only; a clean
      CONNECT deletes nothing. */
  predicate Safe(h: History, op: Op) {
    match op
    case Unsubscribe(s, f) =>
      ValidFilterName(f) ==>
        var p := Split(f);
        && p + [HASH_SEG] !in HeldBy(h, s.id)
        && !(EndsInHash(p) && |p| > 1 && p in HeldBy(h, s.id) && p[..|p| - 1] !in HeldBy(h, s.id))
    case UnsubscribeAll(s, graceful) =>
      s.clean || !graceful || forall f :: f in HeldBy(h, s.id) ==> !ShortFilter(f)
    case Begin(c, clean) => clean ==> HeldBy(h, c) == {}
    case _ => true
  }

  lemma SubscribeEffect(root: Tree, h: History, s: SessionRef, f: Bytes, qos: byte, p: Path, c: ClientId)
    requires RootOk(root) && InSync(root, h) && ValidFilterName(f) && p != []
    ensures Holds(SubsAt(Apply(root, Subscribe(s, f, qos)), p), c) <==>
            Expected(h, p, c) || (c == s.id && (p == Split(f) || p + [HASH_SEG] == Split(f)))
  {
    SplitIsValidPath(f);
    InsertFlat(root, Split(f), s, qos, p);
    SubsAtDistinct(root, p);
    UpsertProps(SubsAt(root, p), s, qos);
    assert root.path + p == p;
    assert Holds(SubsAt(root, p), c) <==> Expected(h, p, c);
  }

  lemma SubscribeStaysInSync(root: Tree, h: History, s: SessionRef, f: Bytes, qos: byte)
    requires RootOk(root) && InSync(root, h)
    ensures InSync(Apply(root, Subscribe(s, f, qos)), Record(h, Subscribe(s, f, qos)))
  {
    if ValidFilterName(f) {
      var r, h' := Apply(root, Subscribe(s, f, qos)), Record(h, Subscribe(s, f, qos));
      forall p: Path, c: ClientId | p != [] ensures Holds(SubsAt(r, p), c) <==> Expected(h', p, c) {
        SubscribeEffect(root, h, s, f, qos, p, c);
        assert HeldBy(h', c) == if c == s.id then HeldBy(h, c) + {Split(f)} else HeldBy(h, c);
      }
    }
  }

  lemma SubsAtDistinct(root: Tree, p: Path)
    requires WellFormed(root)
    ensures DistinctIds(SubsAt(root, p))
  {
    if At(root, p).Some? {
      AtPath(root, p);
    }
  }

  lemma UnsubscribeEffect(root: Tree, h: History, s: SessionRef, f: Bytes, p: Path, c: ClientId)
    requires RootOk(root) && HistoryOk(h) && InSync(root, h) && ValidFilterName(f) && p != []
    ensures Holds(SubsAt(Apply(root, Unsubscribe(s, f)), p), c) <==> Expected(h, p, c) && !(p == Split(f) && c == s.id)
  {
    SplitIsValidPath(f);
    DeleteFlat(root, Split(f), s.id, p);
    SubsAtDistinct(root, p);
    RemoveProps(SubsAt(root, p), s.id);
    assert Holds(SubsAt(root, p), c) <==> Expected(h, p, c);
  }

  lemma UnsubscribeRecorded(h: History, s: SessionRef, f: Bytes, p: Path, c: ClientId)
    requires ValidFilterName(f)
    ensures Expected(Record(h, Unsubscribe(s, f)), p, c) <==>
            (p in HeldBy(h, c) && !(c == s.id && p == Split(f)))
            || (p + [HASH_SEG] in HeldBy(h, c) && !(c == s.id && p + [HASH_SEG] == Split(f)))
  {
    var h' := Record(h, Unsubscribe(s, f));
    assert HeldBy(h', c) == if c == s.id then HeldBy(h, c) - {Split(f)} else HeldBy(h, c);
  }

  lemma SafeUnsubscribe(root: Tree, h: History, s: SessionRef, f: Bytes)
    requires RootOk(root) && HistoryOk(h) && InSync(root, h) && ValidFilterName(f)
    requires Safe(h, Unsubscribe(s, f))
    ensures InSync(Apply(root, Unsubscribe(s, f)), Record(h, Unsubscribe(s, f)))
  {
    var segs := Split(f);
    var r, h' := Apply(root, Unsubscribe(s, f)), Record(h, Unsubscribe(s, f));
    forall p: Path, c: ClientId | p != [] ensures Holds(SubsAt(r, p), c) <==> Expected(h', p, c) {
      UnsubscribeEffect(root, h, s, f, p, c);
      UnsubscribeRecorded(h, s, f, p, c);
      if p + [HASH_SEG] == segs {
        assert p == segs[..|segs| - 1];
      }
    }
  }

  lemma InSyncUnsubscribe(root: Tree, h: History, s: SessionRef, f: Bytes)
    requires RootOk(root) && HistoryOk(h) && InSync(root, h) && ValidFilterName(f)
    requires InSync(Apply(root, Unsubscribe(s, f)), Record(h, Unsubscribe(s, f)))
    ensures Safe(h, Unsubscribe(s, f))
  {
    var segs := Split(f);
    var r, h' := Apply(root, Unsubscribe(s, f)), Record(h, Unsubscribe(s, f));
    UnsubscribeEffect(root, h, s, f, segs, s.id);
    UnsubscribeRecorded(h, s, f, segs, s.id);
    assert Holds(SubsAt(r, segs), s.id) <==> Expected(h', segs, s.id);
    assert segs + [HASH_SEG] != segs;
    if EndsInHash(segs) && |segs| > 1 {
      var q := segs[..|segs| - 1];
      assert q + [HASH_SEG] == segs;
      UnsubscribeEffect(root, h, s, f, q, s.id);
      UnsubscribeRecorded(h, s, f, q, s.id);
      assert Holds(SubsAt(r, q), s.id) <==> Expected(h', q, s.id);
    }
  }

  /** Unsubscribe keeps the index in step exactly when it is safe. */
  lemma UnsubscribeInSyncIffSafe(root: Tree, h: History, s: SessionRef, f: Bytes)
    requires RootOk(root) && HistoryOk(h) && InSync(root, h)
    ensures InSync(Apply(root, Unsubscribe(s, f)), Record(h, Unsubscribe(s, f))) <==> Safe(h, Unsubscribe(s, f))
  {
    if ValidFilterName(f) {
      if Safe(h, Unsubscribe(s, f)) {
        SafeUnsubscribe(root, h, s, f);
      }
      if InSync(Apply(root, Unsubscribe(s, f)), Record(h, Unsubscribe(s, f))) {
        InSyncUnsubscribe(root, h, s, f);
      }
    }
  }

  lemma UnsubscribeAllEffect(root: Tree, h: History, s: SessionRef, graceful: bool, p: Path, c: ClientId)
    requires RootOk(root) && InSync(root, h) && p != []
    ensures Holds(SubsAt(Apply(root, UnsubscribeAll(s, graceful)), p), c) <==>
            Expected(h, p, c) && !(c == s.id && (s.clean || (graceful && |p| == 1)))
  {
    DropAllFlat(root, s.id, graceful || s.clean, s.clean, p);
    SubsAtDistinct(root, p);
    RemoveProps(SubsAt(root, p), s.id);
    assert Holds(SubsAt(root, p), c) <==> Expected(h, p, c);
  }

  lemma UnsubscribeAllRecorded(h: History, s: SessionRef, graceful: bool, p: Path, c: ClientId)
    ensures Expected(Record(h, UnsubscribeAll(s, graceful)), p, c) <==> Expected(h, p, c) && !(c == s.id && s.clean)
  {
    var h' := Record(h, UnsubscribeAll(s, graceful));
    assert HeldBy(h', c) == if c == s.id && s.clean then {} else HeldBy(h, c);
  }

  /** A client that holds an entry on the first level. */
  predicate ShortFilter(f: Path) {
    |f| == 1 || (|f| == 2 && EndsInHash(f))
  }

  lemma SafeUnsubscribeAll(root: Tree, h: History, s: SessionRef, graceful: bool)
    requires RootOk(root) && InSync(root, h) && Safe(h, UnsubscribeAll(s, graceful))
    ensures InSync(Apply(root, UnsubscribeAll(s, graceful)), Record(h, UnsubscribeAll(s, graceful)))
  {
    var r, h' := Apply(root, UnsubscribeAll(s, graceful)), Record(h, UnsubscribeAll(s, graceful));
    forall p: Path, c: ClientId | p != [] ensures Holds(SubsAt(r, p), c) <==> Expected(h', p, c) {
      UnsubscribeAllEffect(root, h, s, graceful, p, c);
      UnsubscribeAllRecorded(h, s, graceful, p, c);
      assert |p| == 1 ==> ShortFilter(p) && ShortFilter(p + [HASH_SEG]);
    }
  }

  lemma InSyncUnsubscribeAll(root: Tree, h: History, s: SessionRef, graceful: bool, f: Path)
    requires RootOk(root) && InSync(root, h) && f in HeldBy(h, s.id) && ShortFilter(f)
    requires InSync(Apply(root, UnsubscribeAll(s, graceful)), Record(h, UnsubscribeAll(s, graceful)))
    ensures s.clean || !graceful
  {
    var r, h' := Apply(root, UnsubscribeAll(s, graceful)), Record(h, UnsubscribeAll(s, graceful));
    var p := f[..1];
    assert p == f || p + [HASH_SEG] == f;
    UnsubscribeAllEffect(root, h, s, graceful, p, s.id);
    UnsubscribeAllRecorded(h, s, graceful, p, s.id);
    assert Holds(SubsAt(r, p), s.id) <==> Expected(h', p, s.id);
  }

  /** A disconnect keeps the index in step exactly when it is safe. */
  lemma UnsubscribeAllInSyncIffSafe(root: Tree, h: History, s: SessionRef, graceful: bool)
    requires RootOk(root) && InSync(root, h)
    ensures InSync(Apply(root, UnsubscribeAll(s, graceful)), Record(h, UnsubscribeAll(s, graceful)))
            <==> Safe(h, UnsubscribeAll(s, graceful))
  {
    if Safe(h, UnsubscribeAll(s, graceful)) {
      SafeUnsubscribeAll(root, h, s, graceful);
    }
    if InSync(Apply(root, UnsubscribeAll(s, graceful)), Record(h, UnsubscribeAll(s, graceful))) {
      forall f | f in HeldBy(h, s.id) && ShortFilter(f) ensures s.clean || !graceful {
        InSyncUnsubscribeAll(root, h, s, graceful, f);
      }
    }
  }

  lemma RetainStaysInSync(root: Tree, h: History, op: Op)
    requires InSync(root, h) && op.Retain?
    ensures InSync(Apply(root, op), Record(h, op))
  {
    if ValidTopicName(op.topic) {
      forall p: Path, c: ClientId | p != []
        ensures Holds(SubsAt(Apply(root, op), p), c) <==> Expected(Record(h, op), p, c)
      {
        RetainFlat(root, Split(op.topic), op.msg, p);
        assert Holds(SubsAt(root, p), c) <==> Expected(h, p, c);
      }
    }
  }

  /** A CONNECT keeps the index in step exactly when it is safe. */
  lemma BeginInSyncIffSafe(root: Tree, h: History, c: ClientId, clean: bool)
    requires RootOk(root) && HistoryOk(h) && InSync(root, h)
    ensures InSync(Apply(root, Begin(c, clean)), Record(h, Begin(c, clean))) <==> Safe(h, Begin(c, clean))
  {
    var h' := Record(h, Begin(c, clean));
    assert forall x :: HeldBy(h', x) == if clean && x == c then {} else HeldBy(h, x);
    if Safe(h, Begin(c, clean)) {
      forall p: Path, x: ClientId | p != [] ensures Holds(SubsAt(root, p), x) <==> Expected(h', p, x) {
        assert Holds(SubsAt(root, p), x) <==> Expected(h, p, x);
      }
    }
    if clean && HeldBy(h, c) != {} {
      var f :| f in HeldBy(h, c);
      assert ValidPath(f);
      assert Holds(SubsAt(root, f), c) <==> Expected(h, f, c);
      assert !Expected(h', f, c);
    }
  }

  lemma StepInSyncIffSafe(root: Tree, h: History, op: Op)
    requires RootOk(root) && HistoryOk(h) && InSync(root, h)
    ensures InSync(Apply(root, op), Record(h, op)) <==> Safe(h, op)
  {
    match op {
      case Subscribe(s, f, qos) => SubscribeStaysInSync(root, h, s, f, qos);
      case Unsubscribe(s, f) => UnsubscribeInSyncIffSafe(root, h, s, f);
      case UnsubscribeAll(s, graceful) => UnsubscribeAllInSyncIffSafe(root, h, s, graceful);
      case Retain(_, _) => RetainStaysInSync(root, h, op);
      case Begin(c, clean) => BeginInSyncIffSafe(root, h, c, clean);
    }
  }

  /** Every operation of the run was safe when it happened. */
  predicate SafeRun(ops: seq<Op>) {
    ops != [] ==> SafeRun(ops[..|ops| - 1]) && Safe(Recorded(ops[..|ops| - 1]), ops[|ops| - 1])
  }

  lemma {:induction false} SafeRunsStayInSync(ops: seq<Op>)
    requires SafeRun(ops)
    ensures InSync(Run(ops), Recorded(ops))
  {
    if ops == [] {
      forall p: Path, c: ClientId | p != []
        ensures Holds(SubsAt(EMPTY_TREE, p), c) <==> Expected(History(map[], map[]), p, c)
      {
        assert At(EMPTY_TREE, p) == None;
      }
    } else {
      var past := ops[..|ops| - 1];
      SafeRunsStayInSync(past);
      EveryRunIsWellFormed(past);
      StepInSyncIffSafe(Run(past), Recorded(past), ops[|ops| - 1]);
    }
  }

  /** A client that has not subscribed since its last connection with a clean session began or ended. */
  predicate Idle(ops: seq<Op>, c: ClientId) {
    ops == [] ||
    var op := ops[|ops| - 1];
    if op.Subscribe? && op.s.id == c then false
    else (op.UnsubscribeAll? && op.s.id == c && op.s.clean) || (op.Begin? && op.client == c && op.clean)
         || Idle(ops[..|ops| - 1], c)
  }

  lemma {:induction false} IdleHoldsNothing(ops: seq<Op>, c: ClientId)
    requires Idle(ops, c)
    ensures HeldBy(Recorded(ops), c) == {}
  {
    if ops != [] && Idle(ops[..|ops| - 1], c) {
      IdleHoldsNothing(ops[..|ops| - 1], c);
    }
  }

  predicate CleanOnly(ops: seq<Op>, i: nat)
    requires i < |ops|
  {
    var op := ops[i];
    op.Subscribe? || op.Retain? || (op.UnsubscribeAll? && op.s.clean) || (op.Begin? && Idle(ops[..i], op.client))
  }

  /** Without Unsubscribe, and with clean sessions only, each ended before the client's next begins,
      every run is safe. */
  lemma {:induction false} CleanRunsAreSafe(ops: seq<Op>)
    requires forall i :: 0 <= i < |ops| ==> CleanOnly(ops, i)
    ensures SafeRun(ops)
  {
    if ops != [] {
      var n := |ops| - 1;
      forall i | 0 <= i < n ensures CleanOnly(ops[..n], i) {
        assert CleanOnly(ops, i) && ops[..n][..i] == ops[..i];
      }
      CleanRunsAreSafe(ops[..n]);
      assert CleanOnly(ops, n);
      if ops[n].Begin? {
        IdleHoldsNothing(ops[..n], ops[n].client);
      }
    }
  }

  // ---------- the nodes match returns, against the filters that clients hold ----------

  predicate Delivered(matches: seq<Tree>, c: ClientId) {
    exists i :: 0 <= i < |matches| && Holds(matches[i].subs, c)
  }

  predicate Owed(h: History, t: Path, c: ClientId) {
    exists f :: f in HeldBy(h, c) && Matches(f, t)
  }

  /** The filter on whose account the node of `p` holds the client. */
  function Origin(h: History, p: Path, c: ClientId): Path {
    if p in HeldBy(h, c) then p else p + [HASH_SEG]
  }

  lemma MatchedNode(root: Tree, t: Path, r: Tree)
    requires RootOk(root) && r in Match(root, t) && t != []
    ensures At(root, r.path) == Some(r) && MatchesBelow(r.path, t) && r.path != []
  {
    MatchSound(root, t, r);
    assert Below(root, r) == r.path;
  }

  lemma OriginMatches(root: Tree, h: History, t: Path, r: Tree, c: ClientId)
    requires RootOk(root) && HistoryOk(h) && InSync(root, h)
    requires t != [] && r in Match(root, t) && Holds(r.subs, c)
    ensures Origin(h, r.path, c) in HeldBy(h, c) && Matches(Origin(h, r.path, c), t)
  {
    MatchedNode(root, t, r);
    var p := r.path;
    assert Holds(SubsAt(root, p), c) <==> Expected(h, p, c);
    if p !in HeldBy(h, c) {
      var f := p + [HASH_SEG];
      assert ValidPath(f);
      ValidIsHashOnlyLast(f);
      assert !EndsInHash(p) by {
        if p != [] {
          assert f[|p| - 1] == p[|p| - 1];
        }
      }
      assert f[..|f| - 1] == p;
      MatchesThroughParent(f, t);
    }
  }

  lemma OwedIsDelivered(root: Tree, h: History, t: Path, c: ClientId, f: Path)
    requires RootOk(root) && HistoryOk(h) && InSync(root, h)
    requires t != [] && f in HeldBy(h, c) && Matches(f, t)
    ensures Delivered(Match(root, t), c)
  {
    assert ValidPath(f);
    ValidIsHashOnlyLast(f);
    MatchesThroughParent(f, t);
    var p := if MatchesBelow(f, t) then f else f[..|f| - 1];
    assert p != [];
    assert p == f || p + [HASH_SEG] == f;
    assert Expected(h, p, c);
    assert Holds(SubsAt(root, p), c);
    MatchComplete(root, t, p);
    var r := At(root, p).value;
    var i :| 0 <= i < |Match(root, t)| && Match(root, t)[i] == r;
    assert Holds(Match(root, t)[i].subs, c);
  }

  /** A client's entries in all the matched lists: the copies of one publish that it gets. */
  function Copies(matches: seq<Tree>, c: ClientId): nat {
    if matches == [] then 0
    else Copies(matches[..|matches| - 1], c) + CountOf(matches[|matches| - 1].subs, c)
  }

  function CountOf(subs: seq<Subscription>, c: ClientId): nat {
    if subs == [] then 0 else (if subs[0].session.id == c then 1 else 0) + CountOf(subs[1..], c)
  }

  lemma {:induction false} AtMostOneEntry(subs: seq<Subscription>, c: ClientId)
    requires DistinctIds(subs)
    ensures CountOf(subs, c) == if Holds(subs, c) then 1 else 0
  {
    if subs != [] {
      AtMostOneEntry(subs[1..], c);
    }
  }

  /** Different matched nodes answer for different filters, as "q" and "q/#" are never both taken. */
  lemma OriginsDiffer(root: Tree, h: History, t: Path, r1: Tree, r2: Tree, c: ClientId)
    requires RootOk(root) && HistoryOk(h) && InSync(root, h) && t != []
    requires r1 in Match(root, t) && r2 in Match(root, t) && Holds(r1.subs, c) && Holds(r2.subs, c)
    requires r1.path != r2.path
    ensures Origin(h, r1.path, c) != Origin(h, r2.path, c)
  {
    MatchedNode(root, t, r1);
    MatchedNode(root, t, r2);
    OriginMatches(root, h, t, r1, c);
    OriginMatches(root, h, t, r2, c);
    if Origin(h, r1.path, c) == Origin(h, r2.path, c) {
      if r1.path == r2.path + [HASH_SEG] {
        NotBoth(root, t, r2, r1);
      } else if r2.path == r1.path + [HASH_SEG] {
        NotBoth(root, t, r1, r2);
      }
    }
  }

  lemma ParentEndsInNoHash(q: Path)
    requires HashOnlyLast(q + [HASH_SEG])
    ensures !EndsInHash(q)
  {
    assert forall i :: 0 <= i < |q| ==> (q + [HASH_SEG])[i] == q[i];
  }

  /** Nodes "q" and "q/#" are never both returned for one topic. */
  lemma NotBoth(root: Tree, t: Path, q: Tree, qh: Tree)
    requires RootOk(root) && t != [] && q in Match(root, t) && qh in Match(root, t)
    ensures qh.path != q.path + [HASH_SEG]
  {
    MatchedNode(root, t, q);
    MatchedNode(root, t, qh);
    AtPath(root, qh.path);
    if HashOnlyLast(q.path + [HASH_SEG]) {
      ParentEndsInNoHash(q.path);
      ParentAndHashExclusive(q.path, t);
    }
  }

  function OwedFilters(h: History, t: Path, c: ClientId): set<Path> {
    set f | f in HeldBy(h, c) && Matches(f, t)
  }

  lemma OneEntryOrNone(root: Tree, t: Path, r: Tree, c: ClientId)
    requires RootOk(root) && r in Match(root, t) && t != []
    ensures CountOf(r.subs, c) == if Holds(r.subs, c) then 1 else 0
  {
    MatchedNode(root, t, r);
    SubsAtDistinct(root, r.path);
    AtMostOneEntry(r.subs, c);
  }

  lemma MatchedPathsDiffer(root: Tree, t: Path)
    requires RootOk(root)
    ensures DistinctPaths(Match(root, t))
  {
    MatchDistinct(root, t);
  }

  lemma OwedByOrigin(h: History, t: Path, f: Path, c: ClientId)
    requires f in HeldBy(h, c) && Matches(f, t)
    ensures f in OwedFilters(h, t, c)
  {
  }

  lemma {:induction false} CopiesHaveOrigins(root: Tree, h: History, t: Path, n: nat, c: ClientId) returns (origins: set<Path>)
    requires RootOk(root) && HistoryOk(h) && InSync(root, h) && t != [] && n <= |Match(root, t)|
    ensures |origins| == Copies(Match(root, t)[..n], c)
    ensures origins <= OwedFilters(h, t, c)
    ensures forall f :: f in origins ==> exists i :: 0 <= i < n && Holds(Match(root, t)[i].subs, c) && f == Origin(h, Match(root, t)[i].path, c)
  {
    hide Match, RootOk, HistoryOk, InSync, Matches, Holds, Origin, CountOf, OwedFilters, DistinctIds;
    origins := {};
    if n > 0 {
      var m := Match(root, t);
      origins := CopiesHaveOrigins(root, h, t, n - 1, c);
      assert m[..n][..n - 1] == m[..n - 1];
      var r := m[n - 1];
      OneEntryOrNone(root, t, r, c);
      if Holds(r.subs, c) {
        var o := Origin(h, r.path, c);
        OriginMatches(root, h, t, r, c);
        OwedByOrigin(h, t, o, c);
        MatchedPathsDiffer(root, t);
        if o in origins {
          var i :| 0 <= i < n - 1 && Holds(m[i].subs, c) && o == Origin(h, m[i].path, c);
          OriginsDiffer(root, h, t, m[i], r, c);
        }
        origins := origins + {o};
      }
    }
  }

  lemma SubsetSize<T>(a: set<T>, b: set<T>)
    requires a <= b
    ensures |a| <= |b|
  {
    assert |b| == |a| + |b - a| by {
      assert b == a + (b - a);
    }
  }

  lemma {:induction false} DeliveredCounts(matches: seq<Tree>, c: ClientId)
    requires forall i :: 0 <= i < |matches| ==> DistinctIds(matches[i].subs)
    ensures Delivered(matches, c) <==> Copies(matches, c) > 0
  {
    if matches != [] {
      var n := |matches| - 1;
      DeliveredCounts(matches[..n], c);
      AtMostOneEntry(matches[n].subs, c);
      if Delivered(matches, c) {
        var i :| 0 <= i < |matches| && Holds(matches[i].subs, c);
        if i < n {
          assert Holds(matches[..n][i].subs, c);
        }
      }
    }
  }

  /** For an index in step with the history: a client gets a publish exactly when one of its filters
      matches, and then at least one and at most as many copies as it has matching filters. */
  lemma IndexAnswers(root: Tree, h: History, t: Path, c: ClientId)
    requires RootOk(root) && HistoryOk(h) && InSync(root, h) && t != []
    ensures Delivered(Match(root, t), c) <==> Owed(h, t, c)
    ensures Copies(Match(root, t), c) <= |OwedFilters(h, t, c)|
    ensures Owed(h, t, c) ==> Copies(Match(root, t), c) >= 1
  {
    var m := Match(root, t);
    if Delivered(m, c) {
      var i :| 0 <= i < |m| && Holds(m[i].subs, c);
      OriginMatches(root, h, t, m[i], c);
    }
    if f :| f in HeldBy(h, c) && Matches(f, t) {
      OwedIsDelivered(root, h, t, c, f);
    }
    var origins := CopiesHaveOrigins(root, h, t, |m|, c);
    assert m[..|m|] == m;
    SubsetSize(origins, OwedFilters(h, t, c));
    forall i | 0 <= i < |m| ensures DistinctIds(m[i].subs) {
      MatchedNode(root, t, m[i]);
      SubsAtDistinct(root, m[i].path);
    }
    DeliveredCounts(m, c);
  }

  /** Index equals specification, over every safe run from the empty tree. */
  lemma {:induction false} IndexEqualsSpecification(ops: seq<Op>, topic: Bytes, c: ClientId)
    requires SafeRun(ops)
    ensures Delivered(Match(Run(ops), Split(topic)), c) <==> Owed(Recorded(ops), Split(topic), c)
    ensures Copies(Match(Run(ops), Split(topic)), c) <= |OwedFilters(Recorded(ops), Split(topic), c)|
    ensures Owed(Recorded(ops), Split(topic), c) ==> Copies(Match(Run(ops), Split(topic)), c) >= 1
  {
    EveryRunIsWellFormed(ops);
    SafeRunsStayInSync(ops);
    IndexAnswers(Run(ops), Recorded(ops), Split(topic), c);
  }

  // ---------- retained messages ----------

  lemma RetainedStep(root: Tree, h: History, op: Op, p: Path)
    requires RootOk(root) && RetainedAt(root, p) == if p in h.retained then Some(h.retained[p]) else None
    ensures RetainedAt(Apply(root, op), p) ==
            if p in Record(h, op).retained then Some(Record(h, op).retained[p]) else None
  {
    hide Insert, Delete, DropAll, TopicTree.Retain, RetainedAt, WellFormed, Split;
    assert WellFormed(root);
    match op {
      case Subscribe(s, f, qos) =>
        if ValidFilterName(f) {
          SplitIsValidPath(f);
          InsertFlat(root, Split(f), s, qos, p);
        }
      case Unsubscribe(s, f) => DeleteFlat(root, Split(f), s.id, p);
      case UnsubscribeAll(s, graceful) => DropAllFlat(root, s.id, graceful || s.clean, s.clean, p);
      case Retain(msg, t) => RetainFlat(root, Split(t), msg, p);
      case Begin(_, _) =>
    }
  }

  lemma {:induction false} RetainedStaysInSync(ops: seq<Op>)
    ensures RetainedInSync(Run(ops), Recorded(ops))
  {
    if ops == [] {
      forall p: Path ensures RetainedAt(EMPTY_TREE, p) == None {
        assert p != [] ==> At(EMPTY_TREE, p) == None;
      }
    } else {
      var past, op := ops[..|ops| - 1], ops[|ops| - 1];
      RetainedStaysInSync(past);
      EveryRunIsWellFormed(past);
      forall p: Path
        ensures RetainedAt(Run(ops), p) == if p in Recorded(ops).retained then Some(Recorded(ops).retained[p]) else None
      {
        RetainedStep(Run(past), Recorded(past), op, p);
      }
    }
  }

  /** A list of nodes that is exactly the retained topics a filter matches, each once. */
  ghost predicate ExactlyRetained(found: seq<Tree>, h: History, f: Path) {
    && DistinctPaths(found)
    && (forall i :: 0 <= i < |found| ==>
          found[i].path in h.retained && Matches(f, found[i].path) && found[i].retained == Some(h.retained[found[i].path]))
    && (forall p :: p in h.retained && Matches(f, p) ==> exists i :: 0 <= i < |found| && found[i].path == p)
  }

  /** Retained lookup equals specification, after every run. */
  lemma {:induction false} RetainedLookupEqualsSpecification(ops: seq<Op>, filter: Bytes)
    requires ValidFilterName(filter)
    ensures ExactlyRetained(Reverse(Run(ops), Split(filter)), Recorded(ops), Split(filter))
  {
    hide Run, Recorded, Split, Reverse, ValidFilterName, RootOk, WellFormed, RetainedInSync, ExactlyRetained;
    EveryRunIsWellFormed(ops);
    RetainedStaysInSync(ops);
    SplitIsValidPath(filter);
    ReverseIsExact(Run(ops), Recorded(ops), Split(filter));
  }

  lemma ReverseIsExact(root: Tree, h: History, f: Path)
    requires RootOk(root) && HistoryOk(h) && RetainedInSync(root, h) && HashOnlyLast(f)
    ensures ExactlyRetained(Reverse(root, f), h, f)
  {
    hide Reverse, WellFormed, Matches;
    var found := Reverse(root, f);
    ReverseDistinct(root, f);
    forall i | 0 <= i < |found|
      ensures found[i].path in h.retained && Matches(f, found[i].path) && found[i].retained == Some(h.retained[found[i].path])
    {
      ReverseSound(root, f, found[i]);
      assert Below(root, found[i]) == found[i].path;
      assert RetainedAt(root, found[i].path) == found[i].retained;
    }
    forall p | p in h.retained && Matches(f, p) ensures exists i :: 0 <= i < |found| && found[i].path == p {
      assert RetainedAt(root, p).Some?;
      AtPath(root, p);
      ReverseComplete(root, f, p);
      var i :| 0 <= i < |found| && found[i] == At(root, p).value;
      assert found[i].path == p;
    }
  }

  lemma {:induction false} OneSubscription(s: SessionRef, filter: Bytes, qos: byte, topic: Bytes)
    requires ValidFilterName(filter)
    ensures Delivered(Match(Run([Subscribe(s, filter, qos)]), Split(topic)), s.id) <==> Matches(Split(filter), Split(topic))
  {
    var a := [Subscribe(s, filter, qos)];
    assert a[..0] == [];
    assert SafeRun([]);
    IndexEqualsSpecification(a, topic, s.id);
    assert Recorded(a) == Record(Recorded([]), a[0]);
    assert HeldBy(Recorded(a), s.id) == {Split(filter)};
  }

  lemma {:induction false} OneRetained(msg: Message, topic: Bytes, filter: Bytes)
    requires ValidFilterName(filter) && ValidTopicName(topic)
    ensures Reverse(Run([Retain(Some(msg), topic)]), Split(filter)) != [] <==> Matches(Split(filter), Split(topic))
  {
    var b := [Retain(Some(msg), topic)];
    assert b[..0] == [];
    RetainedLookupEqualsSpecification(b, filter);
    assert Recorded(b) == Record(Recorded([]), b[0]);
    assert Recorded(b).retained == map[Split(topic) := msg];
    var found := Reverse(Run(b), Split(filter));
    if found != [] {
      assert found[0].path in Recorded(b).retained;
    }
  }

  /** The two walks decide one relation: a tree holding only the subscription delivers the topic
      exactly when a tree holding only the retained topic returns it for the filter. */
  lemma {:induction false} ForwardAndReverseAgree(s: SessionRef, filter: Bytes, qos: byte, msg: Message, topic: Bytes)
    requires ValidFilterName(filter) && ValidTopicName(topic)
    ensures Delivered(Match(Run([Subscribe(s, filter, qos)]), Split(topic)), s.id)
       <==> Reverse(Run([Retain(Some(msg), topic)]), Split(filter)) != []
  {
    OneSubscription(s, filter, qos, topic);
    OneRetained(msg, topic, filter);
  }

  lemma NodeName(root: Tree, name: Bytes)
    requires RootOk(root) && At(root, Split(name)).Some?
    ensures Join(At(root, Split(name)).value.path) == name
  {
    AtPath(root, Split(name));
    assert root.path + Split(name) == Split(name);
    SplitThenJoin(name);
  }

  /** The node that a filter or a topic builds is found under it, and its joined path is that very string. */
  lemma {:induction false} FilterNodeHasItsName(root: Tree, s: SessionRef, filter: Bytes, qos: byte)
    requires RootOk(root) && ValidFilterName(filter)
    ensures var n := At(Apply(root, Subscribe(s, filter, qos)), Split(filter));
            n.Some? && Join(n.value.path) == filter && Subscription(s, qos) in n.value.subs
  {
    ApplyKeepsRootOk(root, Subscribe(s, filter, qos));
    SplitIsValidPath(filter);
    hide At, Insert, Split, ValidFilterName, ValidPath, Holds;
    InsertFlat(root, Split(filter), s, qos, Split(filter));
    var held := SubsAt(root, Split(filter));
    assert Upsert(held, s, qos)[IndexOf(held, s.id)] == Subscription(s, qos);
    hide Upsert, WellFormed;
    NodeName(Apply(root, Subscribe(s, filter, qos)), filter);
  }

  lemma TopicNodeHasItsName(root: Tree, msg: Message, topic: Bytes)
    requires RootOk(root) && ValidTopicName(topic)
    ensures var n := At(Apply(root, Retain(Some(msg), topic)), Split(topic));
            n.Some? && Join(n.value.path) == topic && n.value.retained == Some(msg)
  {
    ApplyKeepsRootOk(root, Retain(Some(msg), topic));
    hide At, TopicTree.Retain, Split, ValidTopicName, WellFormed;
    RetainFlat(root, Split(topic), Some(msg), Split(topic));
    NodeName(Apply(root, Retain(Some(msg), topic)), topic);
  }
}

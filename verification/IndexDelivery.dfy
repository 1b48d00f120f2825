/** What one operation does to the deliveries of one topic: when an index that was in step still gives a
    client exactly what it is owed, topic by topic, for every operation. */
module IndexDelivery {
  import opened Base
  import opened Filters
  import opened Matching
  import opened TopicTree
  import opened TreeQueries
  import opened IndexSpec

  /** A node that holds the client and that the topic takes. */
  predicate Answers(root: Tree, q: Path, t: Path, c: ClientId) {
    q != [] && Holds(SubsAt(root, q), c) && MatchesBelow(q, t)
  }

  /** A topic is delivered to a client exactly through the nodes that hold it and that the topic takes. */
  lemma DeliveredByNode(root: Tree, t: Path, c: ClientId)
    requires RootOk(root) && t != []
    ensures Delivered(Match(root, t), c) <==> exists q :: Answers(root, q, t, c)
  {
    hide Match, WellFormed, At, Holds, MatchesBelow;
    if Delivered(Match(root, t), c) {
      var m := Match(root, t);
      var i :| 0 <= i < |m| && Holds(m[i].subs, c);
      MatchedNode(root, t, m[i]);
      assert Answers(root, m[i].path, t, c);
    }
    if q :| Answers(root, q, t, c) {
      AnswerIsMatched(root, q, t, c);
    }
  }

  lemma AnswerIsMatched(root: Tree, q: Path, t: Path, c: ClientId)
    requires RootOk(root) && t != [] && Answers(root, q, t, c)
    ensures Delivered(Match(root, t), c)
  {
    hide Match, WellFormed, MatchesBelow;
    RootName(root);
    HeldSubs(root, q, c);
    MatchComplete(root, t, q);
    var m := Match(root, t);
    var i :| 0 <= i < |m| && m[i] == At(root, q).value;
  }

  lemma RootName(root: Tree)
    requires RootOk(root)
    ensures WellFormed(root) && Name(root) != HASH_SEG
  {
  }

  lemma HeldSubs(root: Tree, q: Path, c: ClientId)
    requires Holds(SubsAt(root, q), c)
    ensures At(root, q).Some? && At(root, q).value.subs != [] && Holds(At(root, q).value.subs, c)
  {
  }

  /** The node through which a held filter answers a topic it matches: its own or, for "q/#", that of "q". */
  function NodeOf(g: Path, t: Path): Path
    requires g != []
  {
    if MatchesBelow(g, t) then g else g[..|g| - 1]
  }

  /** A node that the topic takes is expected to hold the client exactly when it is that of a held filter
      that matches. */
  lemma ExpectedIsNodeOf(h: History, q: Path, t: Path, c: ClientId)
    requires HistoryOk(h) && t != [] && q != []
    ensures Expected(h, q, c) && MatchesBelow(q, t) <==> exists g :: g in HeldBy(h, c) && Matches(g, t) && NodeOf(g, t) == q
  {
    if Expected(h, q, c) && MatchesBelow(q, t) {
      if q in HeldBy(h, c) {
        assert NodeOf(q, t) == q;
      } else {
        var g := q + [HASH_SEG];
        assert ValidPath(g);
        ValidIsHashOnlyLast(g);
        ParentEndsInNoHash(q);
        ParentAndHashExclusive(q, t);
        MatchesThroughParent(g, t);
        assert g[..|g| - 1] == q && NodeOf(g, t) == q;
      }
    }
    if g :| g in HeldBy(h, c) && Matches(g, t) && NodeOf(g, t) == q {
      assert ValidPath(g);
      ValidIsHashOnlyLast(g);
      MatchesThroughParent(g, t);
      if !MatchesBelow(g, t) {
        assert g == q + [HASH_SEG];
      }
    }
  }

  // ---------- Unsubscribe ----------

  /** After an Unsubscribe, a topic reaches the client through the other nodes that were expected to hold it. */
  lemma UnsubscribeDelivers(root: Tree, h: History, s: SessionRef, f: Bytes, t: Path, c: ClientId)
    requires RootOk(root) && HistoryOk(h) && InSync(root, h) && ValidFilterName(f) && t != []
    ensures Delivered(Match(Apply(root, Unsubscribe(s, f)), t), c)
       <==> exists q :: q != [] && !(q == Split(f) && c == s.id) && Expected(h, q, c) && MatchesBelow(q, t)
  {
    var root' := Apply(root, Unsubscribe(s, f));
    ApplyKeepsRootOk(root, Unsubscribe(s, f));
    DeliveredByNode(root', t, c);
    hide Delete, Match, RootOk, HistoryOk, InSync, Holds, SubsAt, MatchesBelow, Expected, ValidFilterName, Split, Apply;
    forall q | q != []
      ensures Answers(root', q, t, c) <==> !(q == Split(f) && c == s.id) && Expected(h, q, c) && MatchesBelow(q, t)
    {
      UnsubscribeEffect(root, h, s, f, q, c);
    }
  }

  /** The only held filters that match the topic are `p` and "p/#", and the entry of "p/#" on the node
      of `p` is the one that Unsubscribe deletes. */
  predicate LosesEntry(h: History, p: Path, t: Path, c: ClientId) {
    && p + [HASH_SEG] in HeldBy(h, c) && MatchesBelow(p, t)
    && forall g :: g in HeldBy(h, c) && Matches(g, t) ==> g == p || g == p + [HASH_SEG]
  }

  /** The filter is "q/#" and the only held one that matches the topic, which it does through the node of
      "q", whose entry Unsubscribe leaves. */
  predicate LeavesEntry(h: History, p: Path, t: Path, c: ClientId) {
    && p in HeldBy(h, c) && Matches(p, t) && !MatchesBelow(p, t) && |p| > 1
    && forall g :: g in HeldBy(h, c) && Matches(g, t) ==> g == p
  }

  lemma UnsubscribedHeld(h: History, s: SessionRef, f: Bytes, c: ClientId)
    requires ValidFilterName(f)
    ensures HeldBy(Record(h, Unsubscribe(s, f)), c) == if c == s.id then HeldBy(h, c) - {Split(f)} else HeldBy(h, c)
  {
  }

  lemma NodesDiffer(g: Path, p: Path, t: Path)
    requires ValidPath(g) && ValidPath(p) && Matches(g, t) && g != p && t != []
    ensures NodeOf(g, t) == p ==> g == p + [HASH_SEG] && MatchesBelow(p, t)
  {
    ValidIsHashOnlyLast(g);
    MatchesThroughParent(g, t);
  }

  /** Delivered through some node after all but `p` are kept: some filter's node is not `p`. */
  lemma ThroughOthers(h: History, p: Path, t: Path, c: ClientId)
    requires HistoryOk(h) && ValidPath(p) && t != []
    ensures (exists q :: q != [] && q != p && Expected(h, q, c) && MatchesBelow(q, t))
       <==> exists g :: g in HeldBy(h, c) && Matches(g, t) && NodeOf(g, t) != p
  {
    hide Expected, MatchesBelow, NodeOf;
    if q :| q != [] && q != p && Expected(h, q, c) && MatchesBelow(q, t) {
      ExpectedIsNodeOf(h, q, t, c);
    }
    if g :| g in HeldBy(h, c) && Matches(g, t) && NodeOf(g, t) != p {
      assert ValidPath(g);
      NodeIsNotRoot(g, t);
      ExpectedIsNodeOf(h, NodeOf(g, t), t, c);
    }
  }

  lemma NodeIsNotRoot(g: Path, t: Path)
    requires ValidPath(g) && Matches(g, t) && t != []
    ensures NodeOf(g, t) != []
  {
  }

  /** Unsubscribe keeps a topic's delivery to what is owed, except exactly when it loses the entry of "p/#"
      on "p" or leaves it, and no other filter of the client makes up for it. */
  lemma UnsubscribeDeliversIff(root: Tree, h: History, s: SessionRef, f: Bytes, t: Path, c: ClientId)
    requires RootOk(root) && HistoryOk(h) && InSync(root, h) && ValidFilterName(f) && t != []
    ensures (Delivered(Match(Apply(root, Unsubscribe(s, f)), t), c) <==> Owed(Record(h, Unsubscribe(s, f)), t, c))
       <==> !(c == s.id && (LosesEntry(h, Split(f), t, c) || LeavesEntry(h, Split(f), t, c)))
  {
    UnsubscribeDelivers(root, h, s, f, t, c);
    UnsubscribedHeld(h, s, f, c);
    SplitIsValidPath(f);
    var p := Split(f);
    hide Match, RootOk, InSync, Apply, Record, Split, ValidFilterName;
    if c == s.id {
      ThroughOthers(h, p, t, c);
      OthersAndRest(h, p, t, c);
    } else {
      NoPathIsEmpty(h, t, c);
    }
  }

  /** For another client nothing has changed. */
  lemma NoPathIsEmpty(h: History, t: Path, c: ClientId)
    requires HistoryOk(h) && t != []
    ensures (exists q :: q != [] && Expected(h, q, c) && MatchesBelow(q, t)) <==> Owed(h, t, c)
  {
    hide Expected, MatchesBelow, NodeOf;
    if q :| q != [] && Expected(h, q, c) && MatchesBelow(q, t) {
      ExpectedIsNodeOf(h, q, t, c);
    }
    if g :| g in HeldBy(h, c) && Matches(g, t) {
      assert ValidPath(g);
      NodeIsNotRoot(g, t);
      ExpectedIsNodeOf(h, NodeOf(g, t), t, c);
    }
  }

  lemma OthersAndRest(h: History, p: Path, t: Path, c: ClientId)
    requires HistoryOk(h) && ValidPath(p) && t != []
    ensures ((exists g :: g in HeldBy(h, c) && Matches(g, t) && NodeOf(g, t) != p)
             <==> (exists g :: g in HeldBy(h, c) - {p} && Matches(g, t)))
       <==> !(LosesEntry(h, p, t, c) || LeavesEntry(h, p, t, c))
  {
    forall g | g in HeldBy(h, c) && Matches(g, t)
      ensures NodeOf(g, t) == p <==> MatchesBelow(p, t) && (g == p || g == p + [HASH_SEG])
    {
      assert ValidPath(g);
      if g != p {
        NodesDiffer(g, p, t);
        if g == p + [HASH_SEG] && MatchesBelow(p, t) {
          ValidIsHashOnlyLast(g);
          ParentEndsInNoHash(p);
          ParentAndHashExclusive(p, t);
        }
      }
    }
    assert p + [HASH_SEG] != p;
    if MatchesBelow(p, t) && p + [HASH_SEG] in HeldBy(h, c) {
      assert ValidPath(p + [HASH_SEG]);
      ValidIsHashOnlyLast(p + [HASH_SEG]);
      ParentEndsInNoHash(p);
      assert Matches(p + [HASH_SEG], t);
    }
    assert Matches(p, t) && !MatchesBelow(p, t) ==> |p| > 1;
  }

  // ---------- leaving ----------

  /** Every held filter that matches the topic does so through a node of the first level. */
  predicate OnFirstLevel(h: History, t: Path, c: ClientId) {
    Owed(h, t, c) && forall g :: g in HeldBy(h, c) && Matches(g, t) ==> g != [] && |NodeOf(g, t)| == 1
  }

  /** After a disconnect, a topic reaches the client through the nodes that were expected to hold it and
      that the walk has spared. */
  lemma UnsubscribeAllDelivers(root: Tree, h: History, s: SessionRef, graceful: bool, t: Path, c: ClientId)
    requires RootOk(root) && HistoryOk(h) && InSync(root, h) && t != []
    ensures Delivered(Match(Apply(root, UnsubscribeAll(s, graceful)), t), c)
       <==> exists q :: q != [] && Expected(h, q, c) && MatchesBelow(q, t) && !(c == s.id && (s.clean || (graceful && |q| == 1)))
  {
    var root' := Apply(root, UnsubscribeAll(s, graceful));
    ApplyKeepsRootOk(root, UnsubscribeAll(s, graceful));
    DeliveredByNode(root', t, c);
    hide DropAll, Match, RootOk, InSync, Holds, SubsAt, MatchesBelow, Expected, Apply;
    forall q | q != []
      ensures Answers(root', q, t, c) <==>
              Expected(h, q, c) && MatchesBelow(q, t) && !(c == s.id && (s.clean || (graceful && |q| == 1)))
    {
      UnsubscribeAllEffect(root, h, s, graceful, q, c);
    }
  }

  lemma OutsideFirstLevel(h: History, t: Path, c: ClientId)
    requires HistoryOk(h) && t != []
    ensures (exists q :: q != [] && Expected(h, q, c) && MatchesBelow(q, t) && |q| != 1) <==> Owed(h, t, c) && !OnFirstLevel(h, t, c)
  {
    hide Expected, MatchesBelow, NodeOf, Matches;
    if q :| q != [] && Expected(h, q, c) && MatchesBelow(q, t) && |q| != 1 {
      ExpectedIsNodeOf(h, q, t, c);
    }
    if g :| g in HeldBy(h, c) && Matches(g, t) && !(g != [] && |NodeOf(g, t)| == 1) {
      assert ValidPath(g);
      NodeIsNotRoot(g, t);
      ExpectedIsNodeOf(h, NodeOf(g, t), t, c);
    }
  }

  /** A disconnect keeps a topic's delivery to what is owed, except exactly when it is graceful, the session
      is persistent, and all that answers the topic are entries on the first level. */
  lemma UnsubscribeAllDeliversIff(root: Tree, h: History, s: SessionRef, graceful: bool, t: Path, c: ClientId)
    requires RootOk(root) && HistoryOk(h) && InSync(root, h) && t != []
    ensures (Delivered(Match(Apply(root, UnsubscribeAll(s, graceful)), t), c) <==> Owed(Record(h, UnsubscribeAll(s, graceful)), t, c))
       <==> !(c == s.id && !s.clean && graceful && OnFirstLevel(h, t, c))
  {
    UnsubscribeAllDelivers(root, h, s, graceful, t, c);
    RecordedLeaving(h, s, graceful, t, c);
    NoPathIsEmpty(h, t, c);
    OutsideFirstLevel(h, t, c);
    hide Match, RootOk, HistoryOk, InSync, MatchesBelow, Expected, Apply, Record, Delivered;
  }

  lemma RecordedLeaving(h: History, s: SessionRef, graceful: bool, t: Path, c: ClientId)
    ensures Owed(Record(h, UnsubscribeAll(s, graceful)), t, c) <==> Owed(h, t, c) && !(c == s.id && s.clean)
  {
    var h' := Record(h, UnsubscribeAll(s, graceful));
    assert HeldBy(h', c) == if c == s.id && s.clean then {} else HeldBy(h, c);
  }

  // ---------- CONNECT ----------

  /** A CONNECT keeps a topic's delivery to what is owed, except exactly when it is clean and the client
      still holds a filter that matches. */
  lemma BeginDeliversIff(root: Tree, h: History, client: ClientId, clean: bool, t: Path, c: ClientId)
    requires RootOk(root) && HistoryOk(h) && InSync(root, h) && t != []
    ensures (Delivered(Match(Apply(root, Begin(client, clean)), t), c) <==> Owed(Record(h, Begin(client, clean)), t, c))
       <==> !(c == client && clean && Owed(h, t, c))
  {
    IndexAnswers(root, h, t, c);
    var h' := Record(h, Begin(client, clean));
    assert HeldBy(h', c) == if c == client && clean then {} else HeldBy(h, c);
  }

  // ---------- every operation ----------

  /** What a caller would have to rule out, for each operation, for this topic and client. */
  predicate Departs(h: History, op: Op, t: Path, c: ClientId) {
    match op
    case Unsubscribe(s, f) => ValidFilterName(f) && c == s.id && (LosesEntry(h, Split(f), t, c) || LeavesEntry(h, Split(f), t, c))
    case UnsubscribeAll(s, graceful) => c == s.id && !s.clean && graceful && OnFirstLevel(h, t, c)
    case Begin(client, clean) => c == client && clean && Owed(h, t, c)
    case _ => false
  }

  /** From an index in step, an operation leaves a client with exactly the topics it is owed, but for those
      that depart. */
  lemma StepDeliversIff(root: Tree, h: History, op: Op, t: Path, c: ClientId)
    requires RootOk(root) && HistoryOk(h) && InSync(root, h) && t != []
    ensures (Delivered(Match(Apply(root, op), t), c) <==> Owed(Record(h, op), t, c)) <==> !Departs(h, op, t, c)
  {
    if op.UnsubscribeAll? {
      UnsubscribeAllDeliversIff(root, h, op.s, op.graceful, t, c);
    } else if op.Begin? {
      BeginDeliversIff(root, h, op.client, op.clean, t, c);
    } else if op.Unsubscribe? && ValidFilterName(op.filter) {
      UnsubscribeDeliversIff(root, h, op.s, op.filter, t, c);
    } else {
      StepInSyncIffSafe(root, h, op);
      ApplyKeepsRootOk(root, op);
      RecordKeepsHistoryOk(h, op);
      hide Match, Apply, Record, RootOk, InSync, HistoryOk, Delivered, Owed;
      IndexAnswers(Apply(root, op), Record(h, op), t, c);
    }
  }

  // ---------- inputs on which the code departs from the specification ----------

  lemma HashFilterOfA()
    ensures var a: byte := 97;
      && Split([a]) == [[a]] && Split([a, SLASH, HASH]) == [[a], HASH_SEG]
      && ValidFilterName([a]) && ValidFilterName([a, SLASH, HASH])
  {
    var a: byte := 97;
    SplitFirst([a], [HASH]);
    SplitFirst(HASH_SEG, []);
    assert [a, SLASH, HASH] == [a] + [SLASH] + [HASH];
  }

  /** In step after one Subscribe. */
  lemma OneHeld(s: SessionRef, f: Bytes)
    requires ValidFilterName(f)
    ensures var ops := [Subscribe(s, f, 0)];
            RootOk(Run(ops)) && HistoryOk(Recorded(ops)) && InSync(Run(ops), Recorded(ops)) && HeldBy(Recorded(ops), s.id) == {Split(f)}
  {
    hide Apply, Split, ValidFilterName, InSync, RootOk, HistoryOk;
    var ops := [Subscribe(s, f, 0)];
    assert ops[..0] == [] && SafeRun([]) && SafeRun(ops);
    EveryRunIsWellFormed(ops);
    SafeRunsStayInSync(ops);
    assert Recorded([]) == History(map[], map[]);
  }

  lemma ThenAnother(first: Op, second: Op)
    ensures Run([first, second]) == Apply(Run([first]), second)
    ensures Recorded([first, second]) == Record(Recorded([first]), second)
  {
    hide Apply, Record;
    assert [first, second][..1] == [first];
  }

  /** After subscribing to and unsubscribing from "a/#", a client still gets topic "a". */
  lemma UnsubscribedHashStillDelivers(s: SessionRef)
    ensures var a: byte := 97;
            var ops := [Subscribe(s, [a, SLASH, HASH], 0), Unsubscribe(s, [a, SLASH, HASH])];
            Delivered(Match(Run(ops), Split([a])), s.id) && !Owed(Recorded(ops), Split([a]), s.id)
  {
    hide Apply, Match, ValidFilterName, Split, InSync, RootOk, HistoryOk, Delivered, Run, Recorded, Record, HeldBy;
    var a: byte := 97;
    var f: Bytes := [a, SLASH, HASH];
    var one := [Subscribe(s, f, 0)];
    HashFilterOfA();
    OneHeld(s, f);
    ThenAnother(one[0], Unsubscribe(s, f));
    UnsubscribeDeliversIff(Run(one), Recorded(one), s, f, [[a]], s.id);
    UnsubscribedHeld(Recorded(one), s, f, s.id);
    assert Matches([[a], HASH_SEG], [[a]]) && EndsInHash([[a], HASH_SEG]);
  }

  /** After a graceful disconnect, a persistent client no longer gets the topic "a" it holds. */
  lemma GracefulDisconnectForgets(s: SessionRef)
    requires !s.clean
    ensures var a: byte := 97;
            var ops := [Subscribe(s, [a], 0), UnsubscribeAll(s, true)];
            !Delivered(Match(Run(ops), Split([a])), s.id) && Owed(Recorded(ops), Split([a]), s.id)
  {
    hide Apply, Match, ValidFilterName, Split, InSync, RootOk, HistoryOk, Delivered, Run, Recorded, Record, HeldBy;
    var a: byte := 97;
    var one := [Subscribe(s, [a], 0)];
    HashFilterOfA();
    OneHeld(s, [a]);
    ThenAnother(one[0], UnsubscribeAll(s, true));
    assert [[a]] in HeldBy(Recorded(one), s.id) && Matches([[a]], [[a]]);
    RecordedLeaving(Recorded(one), s, true, [[a]], s.id);
    UnsubscribeAllDeliversIff(Run(one), Recorded(one), s, true, [[a]], s.id);
  }

  function BothThenA(s: SessionRef): seq<Op> {
    var a: byte := 97;
    [Subscribe(s, [a, SLASH, HASH], 0), Subscribe(s, [a], 0), Unsubscribe(s, [a])]
  }

  lemma HeldInBothThenA(s: SessionRef)
    ensures var a: byte := 97;
            var ops := BothThenA(s);
            && SafeRun(ops[..2]) && HeldBy(Recorded(ops[..2]), s.id) == {[[a]], [[a], HASH_SEG]}
            && HeldBy(Recorded(ops), s.id) == {[[a], HASH_SEG]}
            && Run(ops) == Apply(Run(ops[..2]), ops[2]) && Recorded(ops) == Record(Recorded(ops[..2]), ops[2])
  {
    hide Apply, ValidFilterName, Split;
    var a: byte := 97;
    var ops := BothThenA(s);
    HashFilterOfA();
    assert ops[..2] == [ops[0], ops[1]] && ops[..2][..1] == [ops[0]] && ops[..2][..1][..0] == [];
    assert SafeRun([]) && SafeRun(ops[..2][..1]);
    assert Recorded([]) == History(map[], map[]);
    assert HeldBy(Recorded(ops[..2][..1]), s.id) == {[[a], HASH_SEG]};
  }

  lemma LosingBoth(root: Tree, h: History, s: SessionRef, f: Bytes)
    requires RootOk(root) && HistoryOk(h) && InSync(root, h) && ValidFilterName(f) && !EndsInHash(Split(f))
    requires HeldBy(h, s.id) == {Split(f), Split(f) + [HASH_SEG]}
    ensures !Delivered(Match(Apply(root, Unsubscribe(s, f)), Split(f)), s.id)
    ensures Owed(Record(h, Unsubscribe(s, f)), Split(f), s.id)
  {
    hide Match, RootOk, HistoryOk, InSync, Apply, Record, Split, Delivered, ValidFilterName;
    var p := Split(f);
    UnsubscribeDeliversIff(root, h, s, f, p, s.id);
    UnsubscribedHeld(h, s, f, s.id);
    assert p + [HASH_SEG] in HeldBy(h, s.id) - {p};
    assert EndsInHash(p + [HASH_SEG]) && Matches(p + [HASH_SEG], p) && MatchesBelow(p, p);
  }

  /** A client that holds "a" and "a/#" and unsubscribes from "a" no longer gets topic "a". */
  lemma UnsubscribedParentIsLost(s: SessionRef)
    ensures var a: byte := 97;
            !Delivered(Match(Run(BothThenA(s)), Split([a])), s.id) && Owed(Recorded(BothThenA(s)), Split([a]), s.id)
  {
    hide Apply, Match, ValidFilterName, Split, InSync, RootOk, HistoryOk, Delivered, Owed, Run, Recorded, Record, SafeRun, HeldBy;
    var a: byte := 97;
    var ops := BothThenA(s);
    HashFilterOfA();
    HeldInBothThenA(s);
    EveryRunIsWellFormed(ops[..2]);
    SafeRunsStayInSync(ops[..2]);
    assert [[a]] + [HASH_SEG] == [[a], HASH_SEG] && ops[2] == Unsubscribe(s, [a]);
    LosingBoth(Run(ops[..2]), Recorded(ops[..2]), s, [a]);
  }

  /** A client that lost its connection with a persistent session still gets topic "a" after a clean CONNECT. */
  lemma CleanConnectKeepsEntries(s: SessionRef)
    requires !s.clean
    ensures var a: byte := 97;
            var ops := [Subscribe(s, [a], 0), UnsubscribeAll(s, false), Begin(s.id, true)];
            Delivered(Match(Run(ops), Split([a])), s.id) && !Owed(Recorded(ops), Split([a]), s.id)
  {
    var a: byte := 97;
    var ops := [Subscribe(s, [a], 0), UnsubscribeAll(s, false), Begin(s.id, true)];
    hide Insert, DropAll, Match, ValidFilterName, Split, WellFormed, At, InSync, RootOk, HistoryOk;
    HashFilterOfA();
    assert ops[..2] == [ops[0], ops[1]] && ops[..2][..1] == [ops[0]] && ops[..2][..1][..0] == [];
    var h2 := Recorded(ops[..2]);
    assert SafeRun([]) && SafeRun(ops[..2][..1]) && SafeRun(ops[..2]);
    EveryRunIsWellFormed(ops[..2]);
    SafeRunsStayInSync(ops[..2]);
    assert Recorded([]) == History(map[], map[]);
    assert HeldBy(Recorded(ops[..2][..1]), s.id) == {[[a]]};
    assert [[a]] in HeldBy(h2, s.id) && Matches([[a]], [[a]]);
    IndexAnswers(Run(ops[..2]), h2, [[a]], s.id);
    assert HeldBy(Recorded(ops), s.id) == {};
  }
}

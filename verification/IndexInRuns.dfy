/** The index inside the broker's runs: the theorems of IndexSpec hold of every Publish and Subscribe. */
module IndexInRuns {
  import opened Base
  import opened Filters
  import opened Matching
  import opened Delivery
  import opened ToldHistory
  import I = IndexSpec
  import P = Packets
  import Q = TreeQueries
  import T = TopicTree

  // ---------- who gets a Publish ----------

  lemma {:induction false} CountSplit(a: seq<Subscription>, b: seq<Subscription>, c: ClientId)
    ensures I.CountOf(a + b, c) == I.CountOf(a, c) + I.CountOf(b, c)
  {
    if a == [] {
      assert a + b == b;
    } else {
      CountSplit(a[1..], b, c);
      assert (a + b)[1..] == a[1..] + b;
    }
  }

  /** The entries Publish goes through are those of the matched nodes. */
  lemma {:induction false} RecipientsAreCopies(matches: seq<T.Tree>, c: ClientId)
    ensures I.CountOf(Recipients(matches), c) == I.Copies(matches, c)
  {
    if matches != [] {
      var n := |matches| - 1;
      RecipientsAreCopies(matches[..n], c);
      CountSplit(Recipients(matches[..n]), matches[n].subs, c);
    }
  }

  /** After any run of the broker whose tree operations were safe, Publish makes a copy for a client
      exactly when the client holds a matching filter, and then at least one and at most as many as it
      holds matching filters. */
  lemma {:induction false} PublishReachesOwed(disk: Disk, events: seq<Event>, topic: Bytes, c: ClientId)
    requires I.SafeRun(AllOps(Initial(disk), events))
    ensures var h := Told(disk, events);
            var copies := I.CountOf(Recipients(T.Match(Run(Initial(disk), events).topics, Split(topic))), c);
            && (copies > 0 <==> I.Owed(h, Split(topic), c))
            && copies <= |I.OwedFilters(h, Split(topic), c)|
  {
    var ops := AllOps(Initial(disk), events);
    RunTopics(disk, events);
    ToldIsRecorded(disk, events);
    I.EveryRunIsWellFormed(ops);
    I.IndexEqualsSpecification(ops, topic, c);
    var m := T.Match(I.Run(ops), Split(topic));
    RecipientsAreCopies(m, c);
    forall i | 0 <= i < |m| ensures T.DistinctIds(m[i].subs) {
      I.MatchedNode(I.Run(ops), Split(topic), m[i]);
      I.SubsAtDistinct(I.Run(ops), m[i].path);
    }
    I.DeliveredCounts(m, c);
  }

  // ---------- what a new subscription gets ----------

  predicate InTimeOrder(ts: seq<T.Tree>) {
    forall i, j :: 0 <= i < j < |ts| ==> TimeOf(ts[i]) <= TimeOf(ts[j])
  }

  lemma {:induction false} InsertedIsPermutation(sorted: seq<T.Tree>, t: T.Tree)
    ensures multiset(InsertByTime(sorted, t)) == multiset(sorted) + multiset{t}
  {
    hide TimeOf;
    if sorted != [] {
      var n := |sorted| - 1;
      assert sorted == sorted[..n] + [sorted[n]];
      if TimeOf(t) < TimeOf(sorted[n]) {
        InsertedIsPermutation(sorted[..n], t);
      }
    }
  }

  lemma {:induction false} InsertedBelow(sorted: seq<T.Tree>, t: T.Tree, bound: int)
    requires TimeOf(t) <= bound && forall i :: 0 <= i < |sorted| ==> TimeOf(sorted[i]) <= bound
    ensures forall i :: 0 <= i < |InsertByTime(sorted, t)| ==> TimeOf(InsertByTime(sorted, t)[i]) <= bound
  {
    hide TimeOf;
    if sorted != [] {
      InsertedBelow(sorted[..|sorted| - 1], t, bound);
    }
  }

  lemma {:induction false} InsertedInOrder(sorted: seq<T.Tree>, t: T.Tree)
    requires InTimeOrder(sorted)
    ensures InTimeOrder(InsertByTime(sorted, t))
  {
    hide TimeOf;
    if sorted != [] {
      var n := |sorted| - 1;
      if TimeOf(t) < TimeOf(sorted[n]) {
        InsertedInOrder(sorted[..n], t);
        InsertedBelow(sorted[..n], t, TimeOf(sorted[n]));
      }
    }
  }

  lemma {:induction false} SortedByTime(ts: seq<T.Tree>)
    ensures InTimeOrder(SortByTime(ts)) && multiset(SortByTime(ts)) == multiset(ts)
  {
    hide TimeOf, InsertByTime, InTimeOrder;
    if ts == [] {
      EmptyInOrder();
    } else {
      var n := |ts| - 1;
      SortedByTime(ts[..n]);
      InsertedInOrder(SortByTime(ts[..n]), ts[n]);
      InsertedIsPermutation(SortByTime(ts[..n]), ts[n]);
      assert ts == ts[..n] + [ts[n]];
    }
  }

  /** The nodes of one timestamp, in their order. */
  function OfTime(ts: seq<T.Tree>, t: int): seq<T.Tree> {
    if ts == [] then []
    else OfTime(ts[..|ts| - 1], t) + if TimeOf(ts[|ts| - 1]) == t then [ts[|ts| - 1]] else []
  }

  lemma {:induction false} OfTimeLast(ts: seq<T.Tree>, x: T.Tree, t: int)
    ensures OfTime(ts + [x], t) == OfTime(ts, t) + if TimeOf(x) == t then [x] else []
  {
    assert (ts + [x])[..|ts|] == ts;
  }

  lemma {:induction false} InsertedIsLastOfItsTime(sorted: seq<T.Tree>, x: T.Tree, t: int)
    requires InTimeOrder(sorted)
    ensures OfTime(InsertByTime(sorted, x), t) == OfTime(sorted, t) + if TimeOf(x) == t then [x] else []
    decreases |sorted|
  {
    hide TimeOf;
    if sorted == [] {
      assert [x][..0] == [] && OfTime([], t) == [];
    } else {
      var n := |sorted| - 1;
      assert sorted == sorted[..n] + [sorted[n]];
      if TimeOf(x) < TimeOf(sorted[n]) {
        InsertedIsLastOfItsTime(sorted[..n], x, t);
        OfTimeLast(InsertByTime(sorted[..n], x), sorted[n], t);
      } else {
        OfTimeLast(sorted, x, t);
      }
    }
  }

  /** The sort is stable: nodes of one timestamp stay in the order in which they were found. */
  lemma {:induction false} SortIsStable(ts: seq<T.Tree>, t: int)
    ensures OfTime(SortByTime(ts), t) == OfTime(ts, t)
  {
    hide TimeOf, InsertByTime, InTimeOrder;
    if ts != [] {
      var n := |ts| - 1;
      SortedByTime(ts[..n]);
      SortIsStable(ts[..n], t);
      InsertedIsLastOfItsTime(SortByTime(ts[..n]), ts[n], t);
    }
  }

  lemma EmptyInOrder()
    ensures InTimeOrder([])
  {
  }

  // ---------- the retained messages of one SUBSCRIBE ----------

  lemma PathOnce(list: seq<T.Tree>, x: T.Tree)
    requires Q.DistinctPaths(list)
    ensures multiset(list)[x] <= 1
  {
    if x in list {
      var p :| 0 <= p < |list| && list[p] == x;
      assert list == list[..p] + [list[p]] + list[p + 1..];
      assert x !in list[..p] && x !in list[p + 1..];
    }
  }

  lemma PermutedDistinct(list: seq<T.Tree>, found: seq<T.Tree>)
    requires Q.DistinctPaths(list) && multiset(found) == multiset(list)
    ensures Q.DistinctPaths(found)
  {
    forall i, j | 0 <= i < j < |found| ensures found[i].path != found[j].path {
      assert found == found[..j] + found[j..];
      assert found[i] in found[..j] && found[j] in found[j..];
      PathOnce(list, found[i]);
      assert found[i] in multiset(list) && found[j] in multiset(list);
      var p :| 0 <= p < |list| && list[p] == found[i];
      var q :| 0 <= q < |list| && list[q] == found[j];
    }
  }

  lemma PermutedExactly(list: seq<T.Tree>, found: seq<T.Tree>, h: I.History, f: Path)
    requires I.ExactlyRetained(list, h, f) && multiset(found) == multiset(list)
    ensures I.ExactlyRetained(found, h, f)
  {
    PermutedDistinct(list, found);
    forall i | 0 <= i < |found|
      ensures found[i].path in h.retained && Matches(f, found[i].path) && found[i].retained == Some(h.retained[found[i].path])
    {
      assert found[i] in multiset(list);
      var p :| 0 <= p < |list| && list[p] == found[i];
    }
    forall p | p in h.retained && Matches(f, p) ensures exists i :: 0 <= i < |found| && found[i].path == p {
      var j :| 0 <= j < |list| && list[j].path == p;
      assert list[j] in multiset(found);
      var i :| 0 <= i < |found| && found[i] == list[j];
    }
  }

  function Subscribes(s: SessionRef, filters: seq<P.FilterQos>): seq<I.Op> {
    seq(|filters|, i requires 0 <= i < |filters| => I.Subscribe(s, filters[i].filter, filters[i].qos))
  }

  /** Entering filters builds the tree of TopicsAfter and retains what was retained. */
  lemma {:induction false} FiltersEntered(ops: seq<I.Op>, s: SessionRef, filters: seq<P.FilterQos>)
    ensures I.Run(ops + Subscribes(s, filters)) == TopicsAfter(I.Run(ops), s, filters)
    ensures I.Recorded(ops + Subscribes(s, filters)).retained == I.Recorded(ops).retained
    decreases |filters|
  {
    hide I.Apply;
    if filters == [] {
      assert ops + Subscribes(s, filters) == ops;
    } else {
      var n := |filters| - 1;
      FiltersEntered(ops, s, filters[..n]);
      var all := ops + Subscribes(s, filters);
      assert all[..|all| - 1] == ops + Subscribes(s, filters[..n]);
    }
  }

  /** What the n-th filter of a SUBSCRIBE finds, in the order in which it is sent. */
  function Found(root: T.Tree, s: SessionRef, filters: seq<P.FilterQos>, n: nat): seq<T.Tree>
    requires n < |filters|
  {
    SortByTime(T.Reverse(TopicsAfter(root, s, filters[..n + 1]), Split(filters[n].filter)))
  }

  /** After any run, each filter of a SUBSCRIBE finds exactly the topics that retain a message and that it
      matches, each once, with the latest message, oldest first. */
  lemma {:induction false} FoundAfterRun(disk: Disk, events: seq<Event>, s: SessionRef, filters: seq<P.FilterQos>, n: nat)
    requires n < |filters| && ValidFilterName(filters[n].filter)
    ensures var found := Found(Run(Initial(disk), events).topics, s, filters, n);
            InTimeOrder(found) && I.ExactlyRetained(found, Told(disk, events), Split(filters[n].filter))
  {
    hide Run, I.Apply, T.Reverse, Split, ValidFilterName, I.Recorded, AllOps, Told, TopicsAfter, I.Run, InTimeOrder;
    var ops := AllOps(Initial(disk), events);
    RunTopics(disk, events);
    ToldIsRecorded(disk, events);
    FiltersEntered(ops, s, filters[..n + 1]);
    var all := ops + Subscribes(s, filters[..n + 1]);
    I.RetainedLookupEqualsSpecification(all, filters[n].filter);
    var list := T.Reverse(I.Run(all), Split(filters[n].filter));
    SortedByTime(list);
    PermutedExactly(list, SortByTime(list), I.Recorded(all), Split(filters[n].filter));
  }
}

/** Which sessions lose their connection when a client leaves: the effect of UnsubscribeAll that is
    not on the tree. */
module Detaching {
  import opened Base
  import opened Sessions
  import opened TopicTree

  /** What DeleteSubscription does to the session of an entry that stays. */
  function DetachEntry(table: seq<SessionState>, t: Tree, id: ClientId): (r: seq<SessionState>)
    ensures |r| == |table|
  {
    var i := IndexOf(t.subs, id);
    if i < |t.subs| then Detach(table, t.subs[i].session) else table
  }

  /** The sessions that lose their connection when a walk meets their entries and leaves them in place. */
  function DetachUnder(table: seq<SessionState>, t: Tree, id: ClientId, top: bool, deep: bool): (r: seq<SessionState>)
    ensures |r| == |table|
    decreases t, 1
  {
    DetachKids(if top then table else DetachEntry(table, t, id), t.kids, id, deep, deep)
  }

  function DetachKids(table: seq<SessionState>, kids: seq<Tree>, id: ClientId, top: bool, deep: bool): (r: seq<SessionState>)
    ensures |r| == |table|
    decreases kids, 0
  {
    if kids == [] then table
    else
      var n := |kids| - 1;
      DetachUnder(DetachKids(table, kids[..n], id, top, deep), kids[n], id, top, deep)
  }

  /** Some entry of the client, at or below `t`, belongs to session number `num`. */
  predicate EntryBelow(t: Tree, id: ClientId, num: nat)
    decreases t
  {
    (exists i :: 0 <= i < |t.subs| && t.subs[i].session.id == id && t.subs[i].session.num == num)
    || exists i :: 0 <= i < |t.kids| && EntryBelow(t.kids[i], id, num)
  }

  /** A session keeps everything but its connection, and keeps that too unless the client has an entry for it. */
  lemma {:induction false} DetachUnderSpares(table: seq<SessionState>, t: Tree, id: ClientId, top: bool, deep: bool, num: nat)
    requires num < |table|
    ensures var r := DetachUnder(table, t, id, top, deep)[num];
            r == table[num] || (EntryBelow(t, id, num) && r == table[num].(client := None))
    decreases t, 1
  {
    var table' := if top then table else DetachEntry(table, t, id);
    DetachKidsSpares(table', t.kids, id, deep, deep, num);
  }

  lemma {:induction false} DetachKidsSpares(table: seq<SessionState>, kids: seq<Tree>, id: ClientId, top: bool, deep: bool, num: nat)
    requires num < |table|
    ensures var r := DetachKids(table, kids, id, top, deep)[num];
            r == table[num]
            || ((exists i :: 0 <= i < |kids| && EntryBelow(kids[i], id, num)) && r == table[num].(client := None))
    decreases kids, 0
  {
    if kids != [] {
      var n := |kids| - 1;
      DetachKidsSpares(table, kids[..n], id, top, deep, num);
      DetachUnderSpares(DetachKids(table, kids[..n], id, top, deep), kids[n], id, top, deep, num);
      assert forall i :: 0 <= i < n ==> kids[..n][i] == kids[i];
    }
  }

  /** An entry of the client for session number `num` is met by the walk and left in place: at `t` unless
      `top`, further down unless `deep`. */
  predicate LeavesEntry(t: Tree, id: ClientId, num: nat, top: bool, deep: bool)
    decreases t
  {
    (!top && exists i :: 0 <= i < |t.subs| && t.subs[i].session.id == id && t.subs[i].session.num == num)
    || exists i :: 0 <= i < |t.kids| && LeavesEntry(t.kids[i], id, num, deep, deep)
  }

  lemma DetachEntryExactly(table: seq<SessionState>, t: Tree, id: ClientId, num: nat)
    requires num < |table| && DistinctIds(t.subs)
    ensures DetachEntry(table, t, id)[num]
         == if exists i :: 0 <= i < |t.subs| && t.subs[i].session.id == id && t.subs[i].session.num == num
            then table[num].(client := None) else table[num]
  {
    if i :| 0 <= i < |t.subs| && t.subs[i].session.id == id {
      assert IndexOf(t.subs, id) == i;
    }
  }

  lemma {:induction false} DetachUnderExactly(table: seq<SessionState>, t: Tree, id: ClientId, top: bool, deep: bool, num: nat)
    requires num < |table| && WellFormed(t)
    ensures DetachUnder(table, t, id, top, deep)[num]
         == if LeavesEntry(t, id, num, top, deep) then table[num].(client := None) else table[num]
    decreases t, 1
  {
    DetachEntryExactly(table, t, id, num);
    var table' := if top then table else DetachEntry(table, t, id);
    hide DetachEntry;
    DetachKidsExactly(table', t.kids, id, deep, deep, num);
  }

  /** Exactly the sessions of entries that are left behind lose their connection. */
  lemma {:induction false} DetachKidsExactly(table: seq<SessionState>, kids: seq<Tree>, id: ClientId, top: bool, deep: bool, num: nat)
    requires num < |table| && forall i :: 0 <= i < |kids| ==> WellFormed(kids[i])
    ensures DetachKids(table, kids, id, top, deep)[num]
         == if exists i :: 0 <= i < |kids| && LeavesEntry(kids[i], id, num, top, deep)
            then table[num].(client := None) else table[num]
    decreases kids, 0
  {
    hide LeavesEntry, WellFormed;
    if kids != [] {
      var n := |kids| - 1;
      DetachKidsExactly(table, kids[..n], id, top, deep, num);
      DetachUnderExactly(DetachKids(table, kids[..n], id, top, deep), kids[n], id, top, deep, num);
      assert forall i :: 0 <= i < n ==> kids[..n][i] == kids[i];
    }
  }
}

/** message_store.go: a map that is changed in place, to message objects that other holders share. */
module MessageStores {
  import opened Base
  import opened Sessions
  import opened Delivery
  import R = Replay

  /** The clientMessage objects, by their index. */
  class MessageHeap {
    var cells: seq<ClientMessage>

    constructor ()
      ensures cells == []
    {
      cells := [];
    }

    method New(m: ClientMessage) returns (ref: MsgRef)
      modifies this
      ensures ref == |old(cells)| && cells == old(cells) + [m]
    {
      ref := |cells|;
      cells := cells + [m];
    }

    /** atomic.StoreInt32(&cm.Status, status) */
    method StoreStatus(ref: MsgRef, status: AckStatus)
      modifies this
      ensures cells == WithStatus(old(cells), ref, status)
    {
      if ref < |cells| {
        cells := cells[ref := cells[ref].(status := status)];
      }
    }
  }

  class MessageStore {
    var messages: map<PacketId, MsgRef>

    constructor ()
      ensures messages == map[]
    {
      messages := map[];
    }

    /** message_store.go:35. */
    method Store(id: PacketId, ref: MsgRef)
      modifies this
      ensures messages == old(messages)[id := ref]
    {
      messages := messages[id := ref];
    }

    /** message_store.go:29. */
    method Delete(id: PacketId)
      modifies this
      ensures messages == old(messages) - {id}
    {
      messages := messages - {id};
    }

    /** message_store.go:52. */
    function Get(id: PacketId): (m: Option<MsgRef>)
      reads this
      ensures m.Some? <==> id in messages
      ensures m.Some? ==> messages[id] == m.value
    {
      if id in messages then Some(messages[id]) else None
    }

    /** message_store.go:42: the status is set in the shared object before the entry goes. */
    method Acknowledge(id: PacketId, status: AckStatus, delete: bool, heap: MessageHeap)
      modifies this, heap
      ensures id !in old(messages) ==> messages == old(messages) && heap.cells == old(heap.cells)
      ensures id in old(messages) ==>
        && heap.cells == WithStatus(old(heap.cells), old(messages)[id], status)
        && messages == if delete then old(messages) - {id} else old(messages)
    {
      var cm := Get(id);
      if cm.Some? {
        heap.StoreStatus(cm.value, status);
        if delete {
          Delete(id);
        }
      }
    }
  }

  function Position(keys: seq<PacketId>, k: PacketId): (n: nat)
    ensures n <= |keys|
    ensures forall i :: 0 <= i < n ==> keys[i] < k
    ensures n < |keys| ==> keys[n] >= k
  {
    if keys == [] || keys[0] >= k then 0 else 1 + Position(keys[1..], k)
  }

  /** The keys of RangeSorted (message_store.go:75): collected in whatever order the map gives them,
      then in ascending order. */
  method SortedKeys(ids: set<PacketId>) returns (keys: seq<PacketId>)
    ensures keys == Ascending(ids, 0)
  {
    keys := [];
    var rest := ids;
    while rest != {}
      invariant rest <= ids && R.StrictlyAscending(keys)
      invariant forall id :: id in keys <==> id in ids && id !in rest
      decreases |rest|
    {
      var k :| k in rest;
      var n := Position(keys, k);
      InsertKey(keys, k, n);
      keys := keys[..n] + [k] + keys[n..];
      rest := rest - {k};
    }
    R.AscendingIsSorted(ids, 0);
    R.SortedListsAgree(keys, Ascending(ids, 0));
  }

  lemma InsertKey(keys: seq<PacketId>, k: PacketId, n: nat)
    requires R.StrictlyAscending(keys) && n == Position(keys, k) && k !in keys
    ensures R.StrictlyAscending(keys[..n] + [k] + keys[n..])
    ensures forall id :: id in keys[..n] + [k] + keys[n..] <==> id in keys || id == k
  {
    hide Position;
    forall j | n <= j < |keys| ensures k < keys[j] {
      assert keys[j] in keys && keys[n] <= keys[j];
    }
    AscendingJoin(keys[..n], k, keys[n..]);
    assert keys == keys[..n] + keys[n..];
  }

  lemma AscendingJoin(a: seq<PacketId>, k: PacketId, b: seq<PacketId>)
    requires R.StrictlyAscending(a) && R.StrictlyAscending(b)
    requires (forall i :: 0 <= i < |a| ==> a[i] < k) && (forall i :: 0 <= i < |b| ==> k < b[i])
    ensures R.StrictlyAscending(a + [k] + b)
  {
  }
}

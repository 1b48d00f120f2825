/** Packet identifiers: sequencer.go, with the bounds of packets.go:8. */
module Sequencer {
  import opened Base

  /** 2^16 - 1 */
  const UPPER := 65535
  const START := 1
  /** How many calls it takes to come round. */
  const PERIOD := 65534

  /** The identifier that call number `k` returns, counting from 0. */
  function IdOfCall(k: nat): PacketId {
    START + k % PERIOD
  }

  /** The field `current` before call number `k`. */
  function CurrentBefore(k: nat): int {
    if k == 0 then 0 else IdOfCall(k - 1) + 1
  }

  class Sequence {
    var current: int
    var calls: nat  // how often Next was called; the source does not count

    ghost predicate Valid()
      reads this
    {
      current == CurrentBefore(calls)
    }

    constructor ()
      ensures Valid() && calls == 0
    {
      current := 0;
      calls := 0;
    }

    /** sequencer.go:12. */
    method Next() returns (id: PacketId)
      requires Valid()
      modifies this
      ensures Valid() && calls == old(calls) + 1
      ensures id == IdOfCall(old(calls))
    {
      NextStep(calls);
      if current == UPPER || current == 0 {
        current := START;
      }
      id := current;
      current := current + 1;
      calls := calls + 1;
    }

    /** sequencer.go:24: the identifier that was given out last, or 0. */
    function Val(): (v: int)
      requires Valid()
      reads this
      ensures v == if calls == 0 then 0 else IdOfCall(calls - 1)
    {
      if current == 0 then current else current - 1
    }
  }

  /** The reset at the upper bound is the wrap of the remainder. */
  lemma NextStep(k: nat)
    ensures var c := CurrentBefore(k);
            (if c == UPPER || c == 0 then START else c) == IdOfCall(k)
  {
    if k > 0 {
      assert k % PERIOD == if (k - 1) % PERIOD == PERIOD - 1 then 0 else (k - 1) % PERIOD + 1;
    }
  }

  /** Identifiers are never 0 and never 65535; two calls share one exactly when a multiple
      of the period lies between them. */
  lemma SameIdIff(j: nat, k: nat)
    requires j <= k
    ensures 1 <= IdOfCall(j) <= PERIOD
    ensures IdOfCall(j) == IdOfCall(k) <==> (k - j) % PERIOD == 0
  {
    assert k == k / PERIOD * PERIOD + k % PERIOD;
    assert j == j / PERIOD * PERIOD + j % PERIOD;
    if IdOfCall(j) == IdOfCall(k) {
      assert k - j == (k / PERIOD - j / PERIOD) * PERIOD;
    }
    if (k - j) % PERIOD == 0 {
      var d := (k - j) / PERIOD;
      assert k - j == d * PERIOD;
      assert k % PERIOD - j % PERIOD == (d - k / PERIOD + j / PERIOD) * PERIOD;
    }
  }

  /** Any 65534 consecutive identifiers are distinct. */
  lemma FreshWithinPeriod(j: nat, k: nat)
    requires j < k < j + PERIOD
    ensures IdOfCall(j) != IdOfCall(k)
  {
    SameIdIff(j, k);
  }
}

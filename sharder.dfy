/**
 * The shard allocator (`DOSIDSharder`): a singleton actor whose one persisted
 * value, `nextShardId`, is read (absent means 0), stored back plus one, and
 * returned. It places no bound on the value; the caller checks the 9-bit range.
 */
module Sharder {
  import opened Wrappers

  /** One allocation on the persisted `nextShardId` value: the value returned and the value stored afterwards. */
  function Allocate(stored: Option<nat>): (r: (nat, Option<nat>))
    ensures r.1 == Some(r.0 + 1)
    ensures stored == None ==> r.0 == 0
    ensures stored.Some? ==> r.0 == stored.value
  {
    var next := stored.GetOr(0);
    (next, Some(next + 1))
  }

  /** The persisted value after n allocations. */
  function Advance(stored: Option<nat>, n: nat): (r: Option<nat>)
    ensures n == 0 ==> r == stored
    ensures n > 0 ==> r == Some(stored.GetOr(0) + n)
  {
    if n == 0 then stored else Allocate(Advance(stored, n - 1)).1
  }

  /** The values returned by n successive allocations, in order. */
  function Allocations(stored: Option<nat>, n: nat): (r: seq<nat>)
    ensures |r| == n
  {
    if n == 0 then [] else Allocations(stored, n - 1) + [Allocate(Advance(stored, n - 1)).0]
  }

  /** The k-th allocation returns the starting value plus k, and the persisted value is one past the last. */
  lemma {:induction false} AllocationsAt(stored: Option<nat>, n: nat)
    ensures |Allocations(stored, n)| == n
    ensures forall k :: 0 <= k < n ==> Allocations(stored, n)[k] == stored.GetOr(0) + k
    ensures n > 0 ==> Advance(stored, n) == Some(stored.GetOr(0) + n)
  {
    forall k | 0 <= k < n
      ensures Allocations(stored, n)[k] == stored.GetOr(0) + k
    {
      AllocationAt(stored, n, k);
    }
  }

  /** The k-th of n allocations returns the starting value plus k. */
  lemma {:induction false} AllocationAt(stored: Option<nat>, n: nat, k: nat)
    requires k < n
    ensures Allocations(stored, n)[k] == stored.GetOr(0) + k
  {
    var prev := Allocations(stored, n - 1);
    assert Allocations(stored, n) == prev + [Allocate(Advance(stored, n - 1)).0];
    if k < n - 1 {
      AllocationAt(stored, n - 1, k);
      assert Allocations(stored, n)[k] == prev[k];
    }
  }

  /** From empty storage, successive allocations return 0, 1, 2, ... */
  lemma AllocationsFromEmpty(n: nat)
    ensures Allocations(None, n) == seq(n, k => k)
  {
    var a := Allocations(None, n);
    AllocationsAt(None, n);
    assert forall k :: 0 <= k < n ==> a[k] == k;
  }

  /** No value is returned twice: allocations strictly increase. */
  lemma AllocationsIncrease(stored: Option<nat>, n: nat, i: nat, j: nat)
    requires i < j < n
    ensures Allocations(stored, n)[i] < Allocations(stored, n)[j]
  {
    AllocationsAt(stored, n);
  }

  /** The persisted value never decreases. */
  lemma AdvanceMonotone(stored: Option<nat>, m: nat, n: nat)
    requires m <= n
    ensures Advance(stored, m).GetOr(0) <= Advance(stored, n).GetOr(0)
  {
    AllocationsAt(stored, m);
    AllocationsAt(stored, n);
  }

  /** The allocator imposes no upper bound: from empty storage the 513th call returns 512. */
  lemma AllocatorUnbounded()
    ensures Allocations(None, 513)[512] == 512
  {
    AllocationsAt(None, 513);
  }

  class DOSIDSharder {
    /** The in-memory copy of the last value read. */
    var nextShardId: int
    /** The storage key `nextShardId`. */
    var stored: Option<nat>
    /** The persisted value when this instance was created. */
    ghost var base: Option<nat>
    /** The values this instance has returned, in order. */
    ghost var Issued: seq<nat>

    ghost predicate Valid()
      reads this
    {
      && stored == Advance(base, |Issued|)
      && Issued == Allocations(base, |Issued|)
      && (Issued != [] ==> nextShardId == Issued[|Issued| - 1])
    }

    /** A new instance over the persisted `stored`; the in-memory field starts at 0. */
    constructor (stored: Option<nat>)
      ensures Valid()
      ensures this.stored == stored && nextShardId == 0
      ensures base == stored && Issued == []
    {
      nextShardId := 0;
      this.stored := stored;
      base := stored;
      Issued := [];
    }

    /** Read `nextShardId` (absent means 0), store it plus one, return the value read. */
    method Fetch() returns (shard: nat)
      requires Valid()
      modifies this
      ensures Valid()
      ensures (shard, stored) == Allocate(old(stored))
      ensures nextShardId == shard
      ensures base == old(base) && Issued == old(Issued) + [shard]
    {
      nextShardId := stored.GetOr(0);
      stored := Some(nextShardId + 1);
      shard := nextShardId;
      Issued := Issued + [shard];
    }
  }
}

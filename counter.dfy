/**
 * The older identifier generator (`DOSIDCounter` in src/counter.ts): the shard
 * is the low nine bits of a hash of the object's id, and each call raises the
 * drawn slot's counter by one and returns one composed id, with no bound check.
 */
module Counter {
  import opened Bits
  import opened Layout

  /** The shard `BigInt(hash(myId)) & ((1n << 9n) - 1n)`: the hash's low nine bits. */
  function HashShard(h: nat): (s: nat)
    ensures s < 512 && s == h % 512
  {
    BitAndMask(h, ShardBits);
    BitAnd(h, Pow2(ShardBits) - 1)
  }

  /** The slot `randomVal[0] & ((1 << 7) - 1)`: the byte's low seven bits. */
  function MaskSlot(b: Byte): (t: Slot)
    ensures t == b % 128
  {
    BitAndMask(b, SlotBits);
    BitAnd(b, Pow2(SlotBits) - 1)
  }

  /**
   * Without an overflow check a slot's counter can reach 2^48, and from then on
   * its ids no longer fit in 64 bits (BigInt does not wrap).
   */
  lemma CounterLimitExceedsIdLimit(c: nat, s: nat, t: nat)
    requires c >= CounterLimit && s < 512 && t < 128
    ensures Compose(c, s, t) >= IdLimit
    ensures CounterOf(Compose(c, s, t)) == c
  {
    ComposeIsSum(c, s, t);
    Decompose(c, s, t);
  }

  class DOSIDCounter {
    /** The object's id string. */
    const myId: string
    /** The hash of an id string (`ohash.hash`), supplied from outside. */
    const hash: string -> nat
    /** The per-slot counters, persisted under the slot's decimal string. */
    var counters: map<Slot, nat>
    /** The ids this instance has handed out. */
    ghost var Issued: set<nat>

    /** The shard of every id this object issues: fixed by its id string. */
    function Shard(): (s: nat)
      ensures s < 512
    {
      HashShard(hash(myId))
    }

    ghost predicate Valid()
      reads this
    {
      forall id :: id in Issued ==> IssuedFrom(id, counters, Shard())
    }

    constructor (myId: string, hash: string -> nat, counters: map<Slot, nat>)
      ensures Valid()
      ensures this.myId == myId && this.hash == hash && this.counters == counters && Issued == {}
    {
      this.myId := myId;
      this.hash := hash;
      this.counters := counters;
      Issued := {};
    }

    /** Draw a slot, raise its counter by one and store it, return the composed id. */
    method Fetch(randomByte: Byte) returns (id: nat)
      requires Valid()
      modifies this
      ensures Valid()
      ensures counters == old(counters)[MaskSlot(randomByte) := Stored(old(counters), MaskSlot(randomByte)) + 1]
      ensures id == Compose(Stored(counters, MaskSlot(randomByte)), Shard(), MaskSlot(randomByte))
      ensures CounterOf(id) == Stored(old(counters), MaskSlot(randomByte)) + 1
      ensures ShardOf(id) == Shard() && SlotOf(id) == MaskSlot(randomByte)
      ensures id !in old(Issued) && Issued == old(Issued) + {id}
      ensures forall x :: x in old(Issued) && SlotOf(x) == SlotOf(id) ==> x < id
    {
      var t := MaskSlot(randomByte);
      var shardId := HashShard(hash(myId));
      var counterValue := Stored(counters, t);
      counterValue := counterValue + 1;
      counters := counters[t := counterValue];
      id := Compose(counterValue, shardId, t);
      Decompose(counterValue, shardId, t);
      forall x | x in Issued && SlotOf(x) == t ensures x < id {
        Recompose(x);
        ComposeMonotone(CounterOf(x), counterValue, shardId, t);
      }
      Issued := Issued + {id};
    }
  }

  /** Two successive calls that draw the same slot (bytes with equal low seven bits) return strictly increasing ids. */
  method SameSlotIncreases(counter: DOSIDCounter, b1: Byte, b2: Byte) returns (first: nat, second: nat)
    requires counter.Valid()
    requires MaskSlot(b1) == MaskSlot(b2)
    modifies counter
    ensures counter.Valid()
    ensures first < second && SlotOf(first) == SlotOf(second)
  {
    first := counter.Fetch(b1);
    second := counter.Fetch(b2);
  }
}

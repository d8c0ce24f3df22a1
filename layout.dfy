/**
 * The 64-bit identifier layout shared by both counter designs: from the most
 * significant bit down, a 48-bit counter, a 9-bit shard id and a 7-bit slot.
 * A composed id is `(counter << 16) | (shard << 7) | slot`, as a BigInt.
 */
module Layout {
  import opened Bits

  const SlotBits: nat := 7
  const ShardBits: nat := 9
  /** The counter starts above the shard and the slot fields. */
  const CounterShift: nat := 16
  /** A counter must stay below 2^48. */
  const CounterLimit: nat := 0x1_0000_0000_0000
  /** A composed id of in-range fields stays below 2^64. */
  const IdLimit: nat := 0x1_0000_0000_0000_0000

  type Slot = t: nat | t < 128
  type Byte = b: nat | b < 256

  /** `(c << 16n) | (s << 7n) | t`, with the OR evaluated left to right as in the source. */
  function Compose(c: nat, s: nat, t: nat): (id: nat)
    ensures c * 65536 <= id <= c * 65536 + s * 128 + t
    ensures s * 128 <= id && t <= id
  {
    BitOr(BitOr(c * 65536, s * 128), t)
  }

  /** `id >> 16n`: the counter field. */
  function CounterOf(id: nat): nat { id / 65536 }
  /** `(id >> 7n) & 511n`: the shard field. */
  function ShardOf(id: nat): nat { (id / 128) % 512 }
  /** `id & 127n`: the slot field. */
  function SlotOf(id: nat): Slot { id % 128 }

  /** The counter stored for slot t (`(await storage.get(t)) || 0n`): an absent slot reads as 0. */
  function Stored(counters: map<Slot, nat>, t: Slot): (c: nat)
    ensures t !in counters ==> c == 0
    ensures t in counters ==> c == counters[t]
  {
    if t in counters then counters[t] else 0
  }

  /**
   * id carries this shard and a counter between 1 and its slot's stored value:
   * it is one that these counters have already handed out.
   */
  ghost predicate IssuedFrom(id: nat, counters: map<Slot, nat>, shard: nat) {
    ShardOf(id) == shard && 1 <= CounterOf(id) <= Stored(counters, SlotOf(id))
  }

  /** With the shard below 2^9 and the slot below 2^7 the fields do not overlap and the ORs are additions. */
  lemma ComposeIsSum(c: nat, s: nat, t: nat)
    requires s < 512 && t < 128
    ensures Compose(c, s, t) == c * 65536 + s * 128 + t
  {
    assert Pow2(SlotBits) == 128 && Pow2(ShardBits) == 512;
    assert c * 65536 == (c * 512) * 128;
    BitOrShift(c * 512, s, SlotBits);
    BitOrDisjoint(c, s, ShardBits);
    assert (c * 512 + s) * 128 == c * 65536 + s * 128;
    BitOrDisjoint(c * 512 + s, t, SlotBits);
  }

  /** Decomposition is the exact inverse of composition for in-range shard and slot. */
  lemma Decompose(c: nat, s: nat, t: nat)
    requires s < 512 && t < 128
    ensures CounterOf(Compose(c, s, t)) == c
    ensures ShardOf(Compose(c, s, t)) == s
    ensures SlotOf(Compose(c, s, t)) == t
  {
    ComposeIsSum(c, s, t);
    var id := c * 65536 + s * 128 + t;
    DivModUnique(id, 65536, c, s * 128 + t);
    DivModUnique(id, 128, c * 512 + s, t);
    DivModUnique(c * 512 + s, 512, c, s);
  }

  /** Distinct (counter, shard, slot) triples with in-range shard and slot give distinct ids. */
  lemma ComposeInjective(c1: nat, s1: nat, t1: nat, c2: nat, s2: nat, t2: nat)
    requires s1 < 512 && t1 < 128 && s2 < 512 && t2 < 128
    ensures Compose(c1, s1, t1) == Compose(c2, s2, t2) <==> c1 == c2 && s1 == s2 && t1 == t2
  {
    Decompose(c1, s1, t1);
    Decompose(c2, s2, t2);
  }

  /** Every id splits into its three fields, which recompose to it. */
  lemma Recompose(id: nat)
    ensures ShardOf(id) < 512 && SlotOf(id) < 128
    ensures Compose(CounterOf(id), ShardOf(id), SlotOf(id)) == id
  {
    var c, s, t := id / 65536, (id / 128) % 512, id % 128;
    DivModUnique(id / 128, 512, (id / 128) / 512, s);
    assert id == (id / 128) * 128 + t;
    DivModUnique(id, 65536, (id / 128) / 512, s * 128 + t);
    ComposeIsSum(c, s, t);
  }

  /** A counter below 2^48 with in-range shard and slot gives an id below 2^64. */
  lemma ComposeBound(c: nat, s: nat, t: nat)
    requires c < CounterLimit && s < 512 && t < 128
    ensures Compose(c, s, t) < IdLimit
  {
    ComposeIsSum(c, s, t);
  }

  /** For a fixed shard and slot, ids grow strictly with the counter. */
  lemma ComposeMonotone(c1: nat, c2: nat, s: nat, t: nat)
    requires c1 < c2 && s < 512 && t < 128
    ensures Compose(c1, s, t) < Compose(c2, s, t)
  {
    ComposeIsSum(c1, s, t);
    ComposeIsSum(c2, s, t);
  }

  /**
   * A shard id of 512 sets bit 16, the lowest counter bit, so counters 2 and 3
   * (binary 10 and 11) produce the same id in the same slot.
   */
  lemma OversizedShardCollides(t: nat)
    requires t < 128
    ensures Compose(3, 512, t) == Compose(2, 512, t)
    ensures ShardOf(Compose(2, 512, t)) != 512
  {
    Pow2Add(7, 9);
    assert Pow2(16) == 65536;
    BitOrShift(2, 1, 16);
    BitOrShift(3, 1, 16);
    assert BitOr(2, 1) == 3 && BitOr(3, 1) == 3;
    Recompose(Compose(2, 512, t));
  }

  /** Counter 10, shard 42 and slot 5 compose to 660741. */
  lemma ComposeExample()
    ensures Compose(10, 42, 5) == 660741
  {
    ComposeIsSum(10, 42, 5);
  }
}

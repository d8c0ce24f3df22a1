/**
 * The current identifier generator (`DOSIDCounter` in src/idgenerator.ts).
 * One call lazily obtains a shard id from the allocator, refuses to run without
 * a salt, validates the batch size, draws a 7-bit slot, advances that slot's
 * persisted counter by the batch size unless that would reach 2^48, and returns
 * the batch of composed ids with their encoded forms.
 */
module IdGenerator {
  import opened Wrappers
  import opened Bits
  import opened Layout
  import Sharder

  /** The batch bound used when `DOSID_MAX_COUNT` is not set. */
  const DefaultMaxCount: int := 8192

  /** The errors a call throws. */
  datatype Error =
    | ShardTooLarge(shard: int)
    | MissingSalt
    | InvalidCount(maxCount: Option<int>)
    | CounterOverflow(value: nat)

  /** A successful response: the encoded ids and the numeric ids, index by index. */
  datatype Batch = Batch(hashIds: seq<string>, numericIds: seq<nat>)

  /** JavaScript's `a < b` on numbers, with None standing for NaN: a comparison involving NaN is false. */
  function JsLess(a: Option<int>, b: Option<int>): (r: bool)
    ensures a.None? || b.None? ==> !r
    ensures a.Some? && b.Some? ==> (r <==> a.value < b.value)
  {
    a.Some? && b.Some? && a.value < b.value
  }

  /** The guard `idCount < 1 || idCount > maxCount || isNaN(idCount)`. */
  function CountRejected(count: Option<int>, maxCount: Option<int>): (r: bool)
    ensures r <==> count.None? || count.value < 1 || (maxCount.Some? && count.value > maxCount.value)
    ensures maxCount.None? && count.Some? && count.value >= 1 ==> !r
  {
    JsLess(count, Some(1)) || JsLess(maxCount, count) || count.None?
  }

  /** The slot `BigInt.asUintN(7, BigInt(byte))`: the byte's low seven bits. */
  function DrawSlot(b: Byte): (t: Slot)
    ensures t == b % 128
  {
    AsUintN(SlotBits, b)
  }

  /** The numeric ids of a batch of n ending at counter `next`: the i-th carries counter next - i. */
  function BatchIds(next: nat, n: nat, shard: nat, t: Slot): (ids: seq<nat>)
    requires n <= next
    ensures |ids| == n
    ensures forall i :: 0 <= i < n ==> (next - i) * 65536 <= ids[i] && 65536 <= ids[i]
  {
    seq(n, i requires 0 <= i < n => Compose(next - i, shard, t))
  }

  /** The encoded ids of a batch, one per numeric id. */
  function EncodeAll(salt: string, ids: seq<nat>, encode: (string, nat) -> string): (hs: seq<string>)
    ensures |hs| == |ids|
    ensures forall i :: 0 <= i < |ids| ==> hs[i] == encode(salt, ids[i])
  {
    seq(|ids|, i requires 0 <= i < |ids| => encode(salt, ids[i]))
  }

  /**
   * What shard resolution reads and writes: the in-memory `myShardId` (-1 when
   * unknown), the persisted `myShardId` key, and the allocator's persisted value.
   */
  datatype ShardState = ShardState(myShardId: int, storedShardId: Option<int>, sharderNext: Option<nat>)

  /** The in-memory shard id is unknown or within 9 bits. */
  predicate ShardInRange(st: ShardState) {
    st.myShardId == -1 || 0 <= st.myShardId < 512
  }

  /**
   * Shard resolution as written: only while `myShardId` is -1, ask the allocator,
   * assign its answer to `myShardId`, then persist it if below 2^9 or throw.
   */
  function ShardStep(st: ShardState): (r: (ShardState, Option<Error>))
    ensures st.myShardId != -1 ==> r == (st, None)
    ensures st.myShardId == -1 ==>
      && r.0.sharderNext == Sharder.Allocate(st.sharderNext).1
      && r.0.myShardId == Sharder.Allocate(st.sharderNext).0
    ensures r.0.storedShardId != st.storedShardId ==> r.1 == None && r.0.storedShardId == Some(r.0.myShardId) && 0 <= r.0.myShardId < 512
    ensures r.1.Some? ==> r.1 == Some(ShardTooLarge(r.0.myShardId)) && r.0.myShardId >= 512
    ensures st.myShardId >= -1 && r.1.None? ==> r.0.myShardId >= 0
    ensures st.myShardId == -1 ==> (r.1.None? <==> Sharder.Allocate(st.sharderNext).0 < 512)
    ensures st.myShardId == -1 && Sharder.Allocate(st.sharderNext).0 < 512 ==>
      r.0.storedShardId == Some(r.0.myShardId)
    ensures st.myShardId == -1 && Sharder.Allocate(st.sharderNext).0 >= 512 ==>
      r.1 == Some(ShardTooLarge(Sharder.Allocate(st.sharderNext).0)) && r.0.storedShardId == st.storedShardId
  {
    if st.myShardId != -1 then (st, None)
    else
      var (a, next') := Sharder.Allocate(st.sharderNext);
      if a < 512 then (ShardState(a, Some(a), next'), None)
      else (ShardState(a, st.storedShardId, next'), Some(ShardTooLarge(a)))
  }

  /** Shard resolution with the check made before the assignment: a rejected answer leaves `myShardId` at -1. */
  function ShardStepFixed(st: ShardState): (r: (ShardState, Option<Error>))
    ensures ShardInRange(st) ==> ShardInRange(r.0)
    ensures st.myShardId != -1 ==> r == (st, None)
    ensures st.myShardId == -1 ==> r.0.sharderNext == Sharder.Allocate(st.sharderNext).1
    ensures r.1.Some? ==> r.0.myShardId == -1 && r.0.storedShardId == st.storedShardId
    ensures st.myShardId >= -1 && r.1.None? ==> r.0.myShardId >= 0
    ensures st.myShardId == -1 ==> (r.1.None? <==> Sharder.Allocate(st.sharderNext).0 < 512)
    ensures st.myShardId == -1 && Sharder.Allocate(st.sharderNext).0 < 512 ==>
      r.0.myShardId == Sharder.Allocate(st.sharderNext).0 && r.0.storedShardId == Some(r.0.myShardId)
    ensures st.myShardId == -1 && Sharder.Allocate(st.sharderNext).0 >= 512 ==>
      r.1 == Some(ShardTooLarge(Sharder.Allocate(st.sharderNext).0))
  {
    if st.myShardId != -1 then (st, None)
    else
      var (a, next') := Sharder.Allocate(st.sharderNext);
      if a < 512 then (ShardState(a, Some(a), next'), None)
      else (ShardState(-1, st.storedShardId, next'), Some(ShardTooLarge(a)))
  }

  /**
   * A rejected oversized shard stays in memory: the next resolution skips the
   * allocator and reports no error, so the call goes on with that shard.
   */
  lemma OversizedShardReused(st: ShardState)
    requires st.myShardId == -1 && Sharder.Allocate(st.sharderNext).0 >= 512
    ensures ShardStep(st).1 == Some(ShardTooLarge(Sharder.Allocate(st.sharderNext).0))
    ensures ShardStep(ShardStep(st).0) == (ShardStep(st).0, None)
    ensures ShardStep(ShardStep(st).0).0.myShardId >= 512
  {
  }

  /** Under the corrected resolution a rejected answer is asked for again on the next call. */
  lemma FixedShardRetried(st: ShardState)
    requires st.myShardId == -1 && Sharder.Allocate(st.sharderNext).0 >= 512
    ensures ShardStepFixed(st).1.Some?
    ensures ShardStepFixed(ShardStepFixed(st).0).0.sharderNext == Sharder.Advance(st.sharderNext, 2)
  {
    Sharder.AllocationsAt(st.sharderNext, 2);
  }

  /**
   * Everything after shard resolution: the salt guard, the count guard, the slot
   * draw, read–add–check–write on the slot's counter, and the batch of ids.
   * Returns the call's result and the new per-slot counters.
   */
  function IssueStep(counters: map<Slot, nat>, shard: nat, salt: Option<string>, count: Option<int>,
                     maxCount: Option<int>, b: Byte, encode: (string, nat) -> string): (r: (Result<Batch, Error>, map<Slot, nat>))
    ensures r.0.Err? ==> r.1 == counters
    ensures salt.None? ==> r.0 == Err(MissingSalt)
    ensures salt.Some? && CountRejected(count, maxCount) ==> r.0 == Err(InvalidCount(maxCount))
    ensures r.0.Ok? <==>
      && salt.Some? && !CountRejected(count, maxCount)
      && Stored(counters, DrawSlot(b)) + count.value < CounterLimit
    ensures salt.Some? && !CountRejected(count, maxCount) && Stored(counters, DrawSlot(b)) + count.value >= CounterLimit ==>
      r.0 == Err(CounterOverflow(Stored(counters, DrawSlot(b)) + count.value))
    ensures r.0.Ok? ==>
      && |r.0.value.numericIds| == count.value && |r.0.value.hashIds| == count.value
      && r.1 == counters[DrawSlot(b) := Stored(counters, DrawSlot(b)) + count.value]
      && (forall i :: 0 <= i < count.value ==> r.0.value.hashIds[i] == encode(salt.value, r.0.value.numericIds[i]))
      && (forall i :: 0 <= i < count.value ==>
            r.0.value.numericIds[i] == Compose(Stored(r.1, DrawSlot(b)) - i, shard, DrawSlot(b)))
  {
    if salt.None? then (Err(MissingSalt), counters)
    else if CountRejected(count, maxCount) then (Err(InvalidCount(maxCount)), counters)
    else
      var n: nat := count.value;
      var t := DrawSlot(b);
      var next := Stored(counters, t) + n;
      if next >= CounterLimit then (Err(CounterOverflow(next)), counters)
      else
        var ids := BatchIds(next, n, shard, t);
        (Ok(Batch(EncodeAll(salt.value, ids, encode), ids)), counters[t := next])
  }

  /**
   * The ids of a batch with an in-range shard: the i-th decomposes into counter
   * next - i, the shard and the drawn slot; so the counters used are exactly
   * last stored + 1 .. next, the ids strictly decrease by index, and each is
   * below 2^64 when next is below 2^48.
   */
  lemma {:induction false} BatchIdsFields(next: nat, n: nat, shard: nat, t: Slot)
    requires n <= next && shard < 512
    ensures forall i :: 0 <= i < n ==>
      && CounterOf(BatchIds(next, n, shard, t)[i]) == next - i
      && ShardOf(BatchIds(next, n, shard, t)[i]) == shard
      && SlotOf(BatchIds(next, n, shard, t)[i]) == t
    ensures forall i, j :: 0 <= i < j < n ==> BatchIds(next, n, shard, t)[j] < BatchIds(next, n, shard, t)[i]
    ensures next < CounterLimit ==> forall i :: 0 <= i < n ==> BatchIds(next, n, shard, t)[i] < IdLimit
  {
    var ids := BatchIds(next, n, shard, t);
    forall i | 0 <= i < n
      ensures CounterOf(ids[i]) == next - i && ShardOf(ids[i]) == shard && SlotOf(ids[i]) == t
      ensures next < CounterLimit ==> ids[i] < IdLimit
    {
      assert ids[i] == Compose(next - i, shard, t);
      Decompose(next - i, shard, t);
      if next < CounterLimit { ComposeBound(next - i, shard, t); }
    }
    forall i, j | 0 <= i < j < n ensures ids[j] < ids[i] {
      assert ids[i] == Compose(next - i, shard, t) && ids[j] == Compose(next - j, shard, t);
      ComposeMonotone(next - j, next - i, shard, t);
    }
  }

  /**
   * A successful call with an in-range shard hands out only ids the old counters
   * had not handed out, and afterwards the new counters account for every id
   * handed out so far; each new id exceeds every earlier id of its slot.
   */
  lemma IssueFresh(counters: map<Slot, nat>, shard: nat, salt: Option<string>, count: Option<int>,
                   maxCount: Option<int>, b: Byte, encode: (string, nat) -> string)
    requires shard < 512
    requires IssueStep(counters, shard, salt, count, maxCount, b, encode).0.Ok?
    ensures var (r, counters') := IssueStep(counters, shard, salt, count, maxCount, b, encode);
      && (forall id :: id in r.value.numericIds ==> !IssuedFrom(id, counters, shard) && IssuedFrom(id, counters', shard))
      && (forall x :: IssuedFrom(x, counters, shard) ==> IssuedFrom(x, counters', shard))
      && (forall x, id :: IssuedFrom(x, counters, shard) && id in r.value.numericIds && SlotOf(x) == SlotOf(id) ==> x < id)
  {
    var t := DrawSlot(b);
    var n: nat := count.value;
    var next := Stored(counters, t) + n;
    var ids := BatchIds(next, n, shard, t);
    BatchIdsFields(next, n, shard, t);
    forall x, id | IssuedFrom(x, counters, shard) && id in ids && SlotOf(x) == SlotOf(id) ensures x < id {
      Recompose(x);
      Recompose(id);
      ComposeMonotone(CounterOf(x), CounterOf(id), shard, t);
    }
  }

  /**
   * A successful call with an in-range shard returns count ids whose i-th
   * decomposes into the new counter minus i, the shard and the drawn slot;
   * the ids strictly decrease by index and fit in 64 bits.
   */
  lemma IssueIds(counters: map<Slot, nat>, shard: nat, salt: Option<string>, count: Option<int>,
                 maxCount: Option<int>, b: Byte, encode: (string, nat) -> string)
    requires shard < 512
    requires IssueStep(counters, shard, salt, count, maxCount, b, encode).0.Ok?
    ensures var (r, counters') := IssueStep(counters, shard, salt, count, maxCount, b, encode);
      var ids, next := r.value.numericIds, Stored(counters', DrawSlot(b));
      && next == Stored(counters, DrawSlot(b)) + |ids|
      && (forall i :: 0 <= i < |ids| ==>
            && CounterOf(ids[i]) == next - i && ShardOf(ids[i]) == shard && SlotOf(ids[i]) == DrawSlot(b)
            && ids[i] < IdLimit)
      && (forall i, j :: 0 <= i < j < |ids| ==> ids[j] < ids[i])
  {
    var t := DrawSlot(b);
    var n: nat := count.value;
    BatchIdsFields(Stored(counters, t) + n, n, shard, t);
  }

  /** Slot 5 holding 9, shard 42, one id: the counter becomes 10 and the id is 660741. */
  lemma IssueExample(encode: (string, nat) -> string)
    ensures IssueStep(map[5 := 9], 42, Some("salt"), Some(1), Some(DefaultMaxCount), 5, encode)
         == (Ok(Batch([encode("salt", 660741)], [660741])), map[5 := 10])
  {
    assert !CountRejected(Some(1), Some(DefaultMaxCount));
    assert DrawSlot(5) == 5 && Stored(map[5 := 9], 5) == 9;
    ComposeExample();
    var ids := BatchIds(10, 1, 42, 5);
    assert ids == [660741];
    assert EncodeAll("salt", ids, encode) == [encode("salt", 660741)];
    assert map[5 := 9][5 := 10] == map[5 := 10];
  }

  /** A counter at 2^48 - 1 cannot take one more: the call fails and the counter stays. */
  lemma IssueOverflowExample(encode: (string, nat) -> string)
    ensures IssueStep(map[5 := CounterLimit - 1], 42, Some("salt"), Some(1), Some(DefaultMaxCount), 5, encode)
         == (Err(CounterOverflow(CounterLimit)), map[5 := CounterLimit - 1])
  {
  }

  class DOSIDCounter {
    /** The in-memory shard id, -1 while unknown. */
    var myShardId: int
    /** The per-slot counters, persisted under the slot's decimal string. */
    var counters: map<Slot, nat>
    /** The storage key `myShardId`. */
    var storedShardId: Option<int>
    /** The numeric ids this instance has handed out. */
    ghost var Issued: set<nat>

    ghost predicate Valid()
      reads this
    {
      && (forall t :: t in counters ==> counters[t] < CounterLimit)
      && (storedShardId.Some? ==> 0 <= storedShardId.value < 512 && myShardId == storedShardId.value)
      && (storedShardId.None? ==> myShardId == -1 || myShardId >= 512)
      && (myShardId == -1 ==> Issued == {})
      && (0 <= myShardId < 512 ==> forall id :: id in Issued ==> IssuedFrom(id, counters, myShardId))
    }

    function State(sharder: Sharder.DOSIDSharder): ShardState
      reads this, sharder
    {
      ShardState(myShardId, storedShardId, sharder.stored)
    }

    /** A new instance over persisted storage: `myShardId` is loaded from its key, -1 when absent. */
    constructor (counters: map<Slot, nat>, storedShardId: Option<int>)
      requires forall t :: t in counters ==> counters[t] < CounterLimit
      requires storedShardId.Some? ==> 0 <= storedShardId.value < 512
      ensures Valid()
      ensures this.counters == counters && this.storedShardId == storedShardId
      ensures myShardId == storedShardId.GetOr(-1) && Issued == {}
    {
      this.counters := counters;
      this.storedShardId := storedShardId;
      myShardId := storedShardId.GetOr(-1);
      Issued := {};
    }

    /** Shard resolution as written. */
    method ResolveShard(sharder: Sharder.DOSIDSharder) returns (err: Option<Error>)
      requires Valid() && sharder.Valid()
      modifies this, sharder
      ensures Valid() && sharder.Valid()
      ensures (State(sharder), err) == ShardStep(old(State(sharder)))
      ensures counters == old(counters) && Issued == old(Issued)
      ensures sharder.base == old(sharder.base)
      ensures old(myShardId) != -1 ==> unchanged(sharder)
    {
      err := None;
      if myShardId == -1 {
        var answer := sharder.Fetch();
        myShardId := answer;
        if myShardId < 512 {
          storedShardId := Some(myShardId);
        } else {
          err := Some(ShardTooLarge(myShardId));
        }
      }
    }

    /** Shard resolution with the range check before the assignment. */
    method ResolveShardFixed(sharder: Sharder.DOSIDSharder) returns (err: Option<Error>)
      requires Valid() && ShardInRange(State(sharder)) && sharder.Valid()
      modifies this, sharder
      ensures Valid() && ShardInRange(State(sharder)) && sharder.Valid()
      ensures (State(sharder), err) == ShardStepFixed(old(State(sharder)))
      ensures counters == old(counters) && Issued == old(Issued)
      ensures sharder.base == old(sharder.base)
      ensures old(myShardId) != -1 ==> unchanged(sharder)
    {
      err := None;
      if myShardId == -1 {
        var answer := sharder.Fetch();
        if answer < 512 {
          myShardId := answer;
          storedShardId := Some(answer);
        } else {
          err := Some(ShardTooLarge(answer));
        }
      }
    }

    /** The part of a call after shard resolution. */
    method Issue(salt: Option<string>, count: Option<int>, maxCount: Option<int>, randomByte: Byte,
                 encode: (string, nat) -> string) returns (r: Result<Batch, Error>)
      requires Valid() && myShardId >= 0
      modifies this
      ensures Valid()
      ensures myShardId == old(myShardId) && storedShardId == old(storedShardId)
      ensures (r, counters) == IssueStep(old(counters), myShardId, salt, count, maxCount, randomByte, encode)
      ensures Issued == old(Issued) + (if r.Ok? then set id | id in r.value.numericIds else {})
      ensures r.Ok? && myShardId < 512 ==> forall id :: id in r.value.numericIds ==> id !in old(Issued)
      ensures r.Ok? && myShardId < 512 ==>
        forall x, id :: x in old(Issued) && id in r.value.numericIds && SlotOf(x) == SlotOf(id) ==> x < id
    {
      if salt.None? {
        return Err(MissingSalt);
      }
      if CountRejected(count, maxCount) {
        return Err(InvalidCount(maxCount));
      }
      var n: nat := count.value;
      var t := DrawSlot(randomByte);
      var counterValue := Stored(counters, t);
      counterValue := counterValue + n;
      if counterValue >= CounterLimit {
        return Err(CounterOverflow(counterValue));
      }
      ghost var before := counters;
      counters := counters[t := counterValue];
      var numericIds := BatchIds(counterValue, n, myShardId, t);
      var hashIds := EncodeAll(salt.value, numericIds, encode);
      Issued := Issued + set id | id in numericIds;
      r := Ok(Batch(hashIds, numericIds));
      if myShardId < 512 {
        IssueFresh(before, myShardId, salt, count, maxCount, randomByte, encode);
      }
    }

    /** One call as written: shard resolution, then the rest unless resolution threw. */
    method Fetch(sharder: Sharder.DOSIDSharder, salt: Option<string>, count: Option<int>, maxCount: Option<int>,
                 randomByte: Byte, encode: (string, nat) -> string) returns (r: Result<Batch, Error>)
      requires Valid() && sharder.Valid()
      modifies this, sharder
      ensures Valid() && sharder.Valid()
      ensures var (st, err) := ShardStep(old(State(sharder)));
        && State(sharder) == st
        && (err.Some? ==> r == Err(err.value) && counters == old(counters) && Issued == old(Issued))
        && (err.None? ==> (r, counters) == IssueStep(old(counters), st.myShardId, salt, count, maxCount, randomByte, encode))
      ensures sharder.base == old(sharder.base)
      ensures old(myShardId) != -1 ==> unchanged(sharder)
      ensures r.Ok? && myShardId < 512 ==> forall id :: id in r.value.numericIds ==> id !in old(Issued)
      ensures Issued == old(Issued) + (if r.Ok? then set id | id in r.value.numericIds else {})
      ensures r.Ok? && myShardId < 512 ==>
        forall x, id :: x in old(Issued) && id in r.value.numericIds && SlotOf(x) == SlotOf(id) ==> x < id
    {
      var err := ResolveShard(sharder);
      if err.Some? {
        return Err(err.value);
      }
      r := Issue(salt, count, maxCount, randomByte, encode);
    }

    /** One call with the corrected shard resolution: every id handed out is new. */
    method FetchFixed(sharder: Sharder.DOSIDSharder, salt: Option<string>, count: Option<int>, maxCount: Option<int>,
                      randomByte: Byte, encode: (string, nat) -> string) returns (r: Result<Batch, Error>)
      requires Valid() && ShardInRange(State(sharder)) && sharder.Valid()
      modifies this, sharder
      ensures Valid() && ShardInRange(State(sharder)) && sharder.Valid()
      ensures var (st, err) := ShardStepFixed(old(State(sharder)));
        && State(sharder) == st
        && (err.Some? ==> r == Err(err.value) && counters == old(counters) && Issued == old(Issued))
        && (err.None? ==> (r, counters) == IssueStep(old(counters), st.myShardId, salt, count, maxCount, randomByte, encode))
      ensures sharder.base == old(sharder.base)
      ensures r.Ok? ==> forall id :: id in r.value.numericIds ==> id !in old(Issued)
      ensures Issued == old(Issued) + (if r.Ok? then set id | id in r.value.numericIds else {})
      ensures r.Ok? ==>
        forall x, id :: x in old(Issued) && id in r.value.numericIds && SlotOf(x) == SlotOf(id) ==> x < id
    {
      var err := ResolveShardFixed(sharder);
      if err.Some? {
        return Err(err.value);
      }
      r := Issue(salt, count, maxCount, randomByte, encode);
    }
  }

  /**
   * With the allocator at 512 and a fresh counter, the first call as written
   * throws, the second goes on with shard 512 and returns a batch of three
   * whose first two ids are equal.
   */
  method OversizedShardScenario(encode: (string, nat) -> string) returns (first: Result<Batch, Error>, second: Result<Batch, Error>)
    ensures first == Err(ShardTooLarge(512))
    ensures second.Ok? && |second.value.numericIds| == 3
    ensures second.value.numericIds[0] == second.value.numericIds[1]
  {
    var sharder := new Sharder.DOSIDSharder(Some(512));
    var counter := new DOSIDCounter(map[], None);
    first := counter.Fetch(sharder, Some("salt"), Some(3), Some(DefaultMaxCount), 0, encode);
    assert counter.myShardId == 512 && counter.counters == map[];
    second := counter.Fetch(sharder, Some("salt"), Some(3), Some(DefaultMaxCount), 0, encode);
    OversizedBatch(encode);
  }

  /** A batch of three from an empty slot 0 under shard 512 repeats its first id. */
  lemma OversizedBatch(encode: (string, nat) -> string)
    ensures var r := IssueStep(map[], 512, Some("salt"), Some(3), Some(DefaultMaxCount), 0, encode).0;
      r.Ok? && |r.value.numericIds| == 3 && r.value.numericIds[0] == r.value.numericIds[1]
  {
    var (r, counters') := IssueStep(map[], 512, Some("salt"), Some(3), Some(DefaultMaxCount), 0, encode);
    assert !CountRejected(Some(3), Some(DefaultMaxCount)) && DrawSlot(0) == 0;
    assert counters' == map[0 := 3] && Stored(counters', 0) == 3;
    assert r.value.numericIds[0] == Compose(3, 512, 0) && r.value.numericIds[1] == Compose(2, 512, 0);
    OversizedShardCollides(0);
  }

  /** The same two calls with the corrected resolution: both throw, asking the allocator each time. */
  method FixedShardScenario(encode: (string, nat) -> string) returns (first: Result<Batch, Error>, second: Result<Batch, Error>)
    ensures first == Err(ShardTooLarge(512))
    ensures second == Err(ShardTooLarge(513))
  {
    var sharder := new Sharder.DOSIDSharder(Some(512));
    var counter := new DOSIDCounter(map[], None);
    first := counter.FetchFixed(sharder, Some("salt"), Some(3), Some(DefaultMaxCount), 0, encode);
    second := counter.FetchFixed(sharder, Some("salt"), Some(3), Some(DefaultMaxCount), 0, encode);
  }

  /** A call without a salt can still persist the shard it resolved, since resolution runs first. */
  method SaltlessCallPersistsShard(encode: (string, nat) -> string) returns (r: Result<Batch, Error>, persisted: Option<int>)
    ensures r == Err(MissingSalt)
    ensures persisted == Some(7)
  {
    var sharder := new Sharder.DOSIDSharder(Some(7));
    var counter := new DOSIDCounter(map[], None);
    r := counter.Fetch(sharder, None, Some(1), Some(DefaultMaxCount), 0, encode);
    persisted := counter.storedShardId;
  }
}

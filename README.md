# Durable-Object ID service: identifier generation

This project models how the service makes identifiers, and proves facts about it. A numeric id is
`(counter << 16) | (shard << 7) | slot`:

- `counter` is a per-slot counter below 2^48;
- `shard` is a 9-bit shard id;
- `slot` is a 7-bit slot drawn at random.

Three actors are modelled, each as a Dafny class. Each `fetch` is one atomic method, because the
runtime runs at most one turn per object at a time.

- `IdGenerator.DOSIDCounter` (src/idgenerator.ts, the current design). Each call does these steps in order:
  - obtains a shard id from the allocator, once;
  - refuses to run without a salt;
  - checks the batch size against `maxCount`;
  - draws a slot;
  - adds the batch size to that slot's stored counter, failing before the write if the result reaches 2^48;
  - returns `count` numeric ids built from counters `new, new-1, …, old+1`, with their encoded forms.
- `Counter.DOSIDCounter` (src/counter.ts, the older design). The shard is the low nine bits of a hash
  of the object id. Each call adds one to the drawn slot's counter and returns one id. There is no bound check.
- `Sharder.DOSIDSharder` (src/sharder.ts). It reads `nextShardId` (absent means 0), stores it plus
  one, and returns the value it read.

Modules:

- `Bits`: BigInt `|`, `&`, `<<` and `asUintN` on unbounded naturals, with their real bit-level meaning.
- `Layout`: the 48/9/7 id layout, composition and exact decomposition.
- `Sharder`, `IdGenerator`, `Counter`: the three actors. Each actor's persisted storage is a field of its class:
  - DOSIDCounter: `counters: map<Slot, nat>` holds the slot keys `"0"`…`"127"`, and `storedShardId` holds the `myShardId` key;
  - DOSIDSharder: `stored` holds the `nextShardId` key.
- `Wrappers`: `Option` (an absent storage value, or NaN) and `Result` (a thrown error).

The current design's call is also given as pure step functions, `IdGenerator.ShardStep` and
`IdGenerator.IssueStep`. Each class method's `ensures` states that its new state and result equal
those functions applied to the old state. The properties are then proved about the functions.

A ghost set `Issued` records every numeric id a counter instance has handed out. Its `Valid()`
invariant ties that set to the stored counters whenever the shard is in range. With that invariant,
each method proves that every new id is absent from `Issued`, and that it exceeds every earlier id of
the same slot.

Inputs from outside the core are method parameters:

- the random byte (`crypto.getRandomValues`), an arbitrary value in [0,256);
- the salt (`Option<string>`, where `None` is an undefined `DOSID_HASHIDS_SALT`);
- the parsed `count` and `maxCount` (`Option<int>`, where `None` is NaN);
- the Hashids encoder, a function `(salt, id) -> string`;
- the `ohash.hash` function (a const field of the legacy counter).

Where the specification and the code differ, the model follows the code:

- Only an *undefined* salt is refused (src/idgenerator.ts:75). An empty salt is accepted.
- The shard is resolved before the salt check (src/idgenerator.ts:35-64 before 75-78). So a call that
  fails for lack of salt can still persist a shard id (`IdGenerator.SaltlessCallPersistsShard`).
- JavaScript comparisons with NaN are false. So a NaN `maxCount` lets through every count of at least
  1 (`IdGenerator.CountRejected`).
- A rejected out-of-range shard is kept in memory (src/idgenerator.ts:47-56). Later calls go on with
  it (see Findings).

## Model

| member | source | states |
|---|---|---|
| `Bits.BitOr` | src/idgenerator.ts:129 | BigInt `a OR b` on naturals: at least each operand and at most their sum |
| `Bits.BitAnd` | src/counter.ts:29 | BigInt `a & b` on naturals: at most each operand |
| `Bits.AsUintN` | src/idgenerator.ts:98 | `BigInt.asUintN(n, x)` lies in [0, 2^n) |
| `Bits.BitOrDisjoint` | src/idgenerator.ts:129 | OR-ing a value below 2^k into a value shifted left by k is addition: the fields do not overlap |
| `Bits.BitOrShift` | src/idgenerator.ts:139-141 | OR commutes with a common left shift |
| `Bits.BitAndMask` | src/counter.ts:26-29 | `x & (2^k - 1)` equals x mod 2^k |
| `Layout.Compose` | src/idgenerator.ts:139-141 | `(c<<16) OR (s<<7) OR t`: at least c·65536, s·128 and t, and at most their sum |
| `Layout.Stored` | src/idgenerator.ts:104-105 | a slot's stored counter, read as 0 when its key is absent |
| `Layout.ComposeIsSum` | src/idgenerator.ts:139-141 | with shard < 2^9 and slot < 2^7, `(c<<16) OR (s<<7) OR t` equals c·65536 + s·128 + t |
| `Layout.Decompose` | src/idgenerator.ts:139-141 | id ÷ 65536 = c, (id ÷ 128) mod 512 = s, id mod 128 = t for in-range s and t |
| `Layout.ComposeInjective` | src/idgenerator.ts:129 | for in-range shard and slot, two ids are equal if and only if their (counter, shard, slot) triples are equal |
| `Layout.Recompose` | src/idgenerator.ts:139-141 | every id splits into in-range fields that recompose to it |
| `Layout.ComposeBound` | src/idgenerator.ts:111-116 | a counter below 2^48 with in-range shard and slot gives an id below 2^64 |
| `Layout.ComposeMonotone` | src/counter.ts:40 | for a fixed shard and slot, ids strictly increase with the counter |
| `Layout.OversizedShardCollides` | src/idgenerator.ts:139-141 | shard 512 makes counters 2 and 3 compose to the same id, and the shard field then does not read back as 512 |
| `Layout.ComposeExample` | src/idgenerator.ts:139-141 | counter 10, shard 42, slot 5 compose to 660741 |
| `Sharder.Allocate` | src/sharder.ts:23-25 | one call returns the stored value when present and 0 when absent, and leaves the returned value + 1 stored |
| `Sharder.Advance` | src/sharder.ts:23-25 | after n > 0 calls the stored value is the start (0 when absent) + n; after none it is unchanged |
| `Sharder.Allocations` | src/sharder.ts:22-26 | n successive calls return n values |
| `Sharder.AllocationsAt` | src/sharder.ts:22-26 | the k-th of n successive calls returns start + k, and afterwards start + n is stored |
| `Sharder.AllocationAt` | src/sharder.ts:22-26 | the k-th of n successive calls returns the starting value (0 when absent) + k |
| `Sharder.AllocationsFromEmpty` | src/sharder.ts:23-24 | from empty storage successive calls return 0, 1, 2, … |
| `Sharder.AllocationsIncrease` | src/sharder.ts:22-26 | successive calls return strictly increasing values, so none is returned twice |
| `Sharder.AdvanceMonotone` | src/sharder.ts:25 | the stored `nextShardId` never decreases |
| `Sharder.AllocatorUnbounded` | src/sharder.ts:22-39 | the allocator has no upper bound: from empty storage the 513th call returns 512 |
| `Sharder.DOSIDSharder.constructor` | src/sharder.ts:12-17 | a new instance starts its in-memory `nextShardId` at 0 over the given storage |
| `Sharder.DOSIDSharder.Fetch` | src/sharder.ts:19-39 | the returned value and the new stored value are `Allocate` of the old stored value; the field holds the returned value; the history of returned values grows by it |
| `IdGenerator.JsLess` | src/idgenerator.ts:82 | JavaScript `a < b`: false whenever either side is NaN, else the integer comparison |
| `IdGenerator.CountRejected` | src/idgenerator.ts:81-86 | a count is rejected if and only if it is NaN, below 1, or above a non-NaN `maxCount`; a NaN `maxCount` rejects no count of at least 1 |
| `IdGenerator.DrawSlot` | src/idgenerator.ts:97-98 | the slot is the byte's low seven bits, in [0,128) |
| `IdGenerator.BatchIds` | src/idgenerator.ts:134-143 | a batch of n ids ending at counter `next`; the i-th is at least (next − i)·2^16, so its counter field is never 0 |
| `IdGenerator.EncodeAll` | src/idgenerator.ts:124-131 | one encoded id per numeric id, the i-th the encoding of the i-th numeric id under the salt |
| `IdGenerator.ShardStep` | src/idgenerator.ts:35-64 | resolution runs only while `myShardId` is -1 and then takes the allocator's answer; from -1 it succeeds if and only if the answer is below 512, and then persists it; an answer ≥ 512 throws `ShardTooLarge` with that answer, persists nothing and is kept in `myShardId` |
| `IdGenerator.ShardStepFixed` | src/idgenerator.ts:47-62 | the corrected resolution keeps `myShardId` at -1 or in [0,512); from -1 it succeeds if and only if the answer is below 512, and then keeps and persists it |
| `IdGenerator.OversizedShardReused` | src/idgenerator.ts:35-62 | after an oversized answer throws, the next resolution skips the allocator, reports no error and keeps the shard ≥ 512 |
| `IdGenerator.FixedShardRetried` | src/idgenerator.ts:47-62 | under the corrected resolution a rejected answer is asked for again on the next call |
| `IdGenerator.IssueStep` | src/idgenerator.ts:75-143 | a missing salt fails first, then a bad count; success holds if and only if salt and count pass and old + count < 2^48; on overflow the error carries old + count; every failure leaves the counters unchanged; success stores old + count for the drawn slot only and returns `count` numeric and `count` encoded ids, the i-th built from counter new − i |
| `IdGenerator.BatchIdsFields` | src/idgenerator.ts:134-143 | with an in-range shard, the i-th id of a batch decomposes into counter next − i, the shard and the slot; the ids strictly decrease by index; with next < 2^48 each is below 2^64 |
| `IdGenerator.IssueIds` | src/idgenerator.ts:104-143 | a successful call's ids use exactly counters new, new−1, …, old+1 with the shard and drawn slot, strictly decrease, and fit in 64 bits |
| `IdGenerator.IssueFresh` | src/idgenerator.ts:104-143 | with an in-range shard, no id of a successful call could have been handed out from the old counters; the new counters account for all old and new ids; each new id exceeds every earlier id of its slot |
| `IdGenerator.IssueExample` | src/idgenerator.ts:104-143 | slot 5 at 9, shard 42, count 1: the counter becomes 10 and the id is 660741 |
| `IdGenerator.IssueOverflowExample` | src/idgenerator.ts:104-118 | a slot at 2^48 − 1 with count 1 fails with the overflow value 2^48 and keeps its counter |
| `IdGenerator.DOSIDCounter.constructor` | src/idgenerator.ts:18-30 | `myShardId` is loaded from its storage key, and is -1 when the key is absent |
| `IdGenerator.DOSIDCounter.ResolveShard` | src/idgenerator.ts:35-64 | new shard state and error are `ShardStep` of the old state; the allocator is called only while `myShardId` is -1; the counters are untouched |
| `IdGenerator.DOSIDCounter.ResolveShardFixed` | src/idgenerator.ts:47-62 | new shard state and error are `ShardStepFixed` of the old state, and the shard stays in range |
| `IdGenerator.DOSIDCounter.Issue` | src/idgenerator.ts:75-143 | result and new counters are `IssueStep` of the old counters; with an in-range shard every new id is one not issued before, and exceeds every earlier id of its slot |
| `IdGenerator.DOSIDCounter.Fetch` | src/idgenerator.ts:33-143 | one call as written: `ShardStep`, then (unless it threw) `IssueStep`; a shard error leaves the counters unchanged; `Issued` grows by exactly the returned ids; with an in-range shard those ids are new and exceed every earlier id of their slot |
| `IdGenerator.DOSIDCounter.FetchFixed` | src/idgenerator.ts:33-143 | one call with the corrected resolution: `ShardStepFixed`, then `IssueStep`; `Issued` grows by exactly the returned ids, which are always new and exceed every earlier id of their slot |
| `IdGenerator.OversizedShardScenario` | src/idgenerator.ts:47-62 | with the allocator at 512, the first call throws and the second returns a batch of three whose first two ids are equal |
| `IdGenerator.OversizedBatch` | src/idgenerator.ts:104-143 | a batch of three from an empty slot 0 under shard 512 succeeds and its first two numeric ids are equal |
| `IdGenerator.FixedShardScenario` | src/idgenerator.ts:47-62 | under the correction the same two calls both throw, with answers 512 and 513 |
| `IdGenerator.SaltlessCallPersistsShard` | src/idgenerator.ts:35-78 | a call without a salt fails with `MissingSalt` yet persists the shard it resolved |
| `Counter.HashShard` | src/counter.ts:29 | the shard is the hash's low nine bits, in [0,512) |
| `Counter.MaskSlot` | src/counter.ts:25-26 | the slot is the byte's low seven bits, in [0,128) |
| `Counter.CounterLimitExceedsIdLimit` | src/counter.ts:33-40 | once a slot's counter reaches 2^48 its ids no longer fit in 64 bits, though the counter still decodes |
| `Counter.DOSIDCounter.Shard` | src/counter.ts:29 | the shard is in [0,512) and depends only on the object's id |
| `Counter.DOSIDCounter.constructor` | src/counter.ts:10-13 | a new instance over the given counters and id |
| `Counter.DOSIDCounter.Fetch` | src/counter.ts:16-42 | the drawn slot's counter becomes old + 1 (absent read as 0) and all others keep theirs; the id is `(c<<16) OR (shard<<7) OR slot` and decomposes back into the new counter (≥ 1), shard and slot; it was not issued before and exceeds every earlier id of its slot |
| `Counter.SameSlotIncreases` | src/counter.ts:25-40 | two successive calls with any two random bytes of equal low seven bits return ids of that slot, strictly increasing |

## Left out

- HTTP routing, the object name derived from geography, and JSON response building (src/index.ts) are not part of this model.
- The Hashids encoder is a function parameter about which nothing is assumed, so no decode round trip is proved.
- `ohash.hash` is a function field about which nothing is assumed; only its 9-bit mask is reasoned about.
- `crypto.getRandomValues` is replaced by an arbitrary byte parameter.
- The Durable Object runtime is modelled as one atomic step per `fetch`. Left out: `blockConcurrencyWhile`, input/output gates, suspension points, and the un-awaited `put` calls (src/sharder.ts:25, src/idgenerator.ts:57). A failed or lost write is therefore not modelled.
- The runtime's reset of an object whose `blockConcurrencyWhile` callback throws is not modelled. After a thrown error the instance keeps its in-memory fields.
- The call from the counter to the allocator is a direct method call on the allocator object; `idFromName('SHARDER')` and the text round trip of the answer are not modelled.
- `parseInt` of `DOSID_MAX_COUNT` and of the `count` query parameter is taken as already done: `Option<int>`, with `None` for NaN. Float precision for very large counts and the array-length limit of `new Array(idCount)` are not modelled.
- The numeric ids are returned as naturals; the decimal `toString` is not modelled.
- Debug logging is not modelled.
- `IdGenerator.DOSIDCounter.constructor` requires the persisted counters to be below 2^48 and a persisted shard id to be in [0,512). Only this code writes that storage, and it writes nothing else.

## Findings

| source | as written | input that shows it | evidently intended | confidence | as-written member | corrected member |
|---|---|---|---|---|---|---|
| src/idgenerator.ts:47-56 | `myShardId` is assigned the allocator's answer before the 9-bit check. The check throws but leaves the value in memory, and the guard at line 35 tests only `-1`. The next call therefore goes on with a shard ≥ 512, whose bits overlap the counter field. | allocator's stored `nextShardId` = 512, a fresh counter object, a random byte of 0, `count` = 3, called twice: the first call throws; the second returns ids from counters 3, 2, 1 with shard 512, and `(3<<16) OR (512<<7)` equals `(2<<16) OR (512<<7)`, so ids 0 and 1 are equal | a rejected shard id is never used: `myShardId` stays -1 (or the object refuses to issue) so every id has a shard below 2^9 and ids never repeat | not executed; medium: in the code's own semantics it is certain, but the Durable Object runtime may reset an object whose `blockConcurrencyWhile` callback throws, which would discard the in-memory value | `IdGenerator.OversizedShardScenario` | `IdGenerator.DOSIDCounter.FetchFixed` |

The model keeps the as-written behaviour in `IdGenerator.DOSIDCounter.Fetch`, because that is what the source does. The
corrected resolution is `IdGenerator.ShardStepFixed`. Under it, `IdGenerator.DOSIDCounter.FetchFixed` keeps the shard at
-1 or in [0,512), and proves every successful id new (`IdGenerator.IssueFresh`).

# monotone: range-lease ID generators

A Dafny model of the three ID generators of `monotone`. Each generator keeps a
local interval of IDs (`idRange`) and a cursor (`idCounter`). `nextId` serves
the cursor while it lies in the interval. Once the cursor runs past it, the
generator leases a fresh block from a shared remote counter. The three
versions differ in how they lease and in where the block's bounds lie:

- `Zk` (`zk/ZKGenerator.java`): leases by atomic add, at most `maxAttempts`
  tries per refresh. It installs the half-open range
  `[max(1, end - maxIdsToFetch), end)`, where `end` is the counter after the
  add, and puts the cursor at the lower bound. Its builder checks its
  arguments. The seed is written only over a counter that reads 0.
- `LegacyZk` (root `ZKGenerator.java`): reads the counter as `c` and
  compare-and-sets it to `c + maxIdsToFetch`, once per refresh. It installs
  the closed range `[c, c + maxIdsToFetch]` with the cursor at `c + 1`.
  `nextId` refreshes with no bound on the number of attempts.
- `Redis` (`redis/RedisGenerator.java`): reads the key as `c`, `INCRBY`s it
  and installs the same closed range. Whenever its cursor is 0 it first
  `SET`s the key to 0. Its constructor calls `nextId` once.

The remote counter is `Remote.Counter`, a class with one integer `value`.
Whether an `add` or a `compareAndSet` goes through is read from `outcomes`, a
script of booleans fixed when the counter is made. A call made after the
script is used up fails. A ghost `log` records every call in order.

Every generator is a class whose fields its methods update. `Valid()` holds
what each method keeps true:
- the range and cursor are well formed against the remote value;
- the ghost sequence `issued` of IDs handed out so far strictly increases
  (`Common.Increasing`);
- everything issued lies below the cursor and at or below the remote value.

For the Redis generator the last two parts are a separate predicate,
`Monotone()`, because its own reset of the key can break them from another
instance: `NextId` keeps `Monotone()` when it holds, and is callable when it
does not.

Each `nextId` is split in two:
- `NextId` does the zero-cursor step and the first `getAndIncrement`;
- `ServeFrom` runs the source's `while` loop.

The module-level lemmas state, over whole runs, that leases taken from a
counter that only moves forward by whole blocks issue strictly increasing
IDs. The `*Scenarios` modules replay the unit tests, plus a few runs beyond
them, as methods with concrete results.

## Model

| member | source | states |
|---|---|---|
| Common.PastRange | src/main/java/com/et/monotone/zk/ZKGenerator.java:78-81 | a cursor at or above a range's lower end that lies outside the range is past its upper end, and so is the cursor after `getAndIncrement` |
| Common.IncreasingIffPairwise | src/main/java/com/et/monotone/IdGenerator.java:5-8 | the "monotonically increasing" promise, stated step by step, is the same as every earlier ID being smaller than every later one, so nothing repeats |
| Common.IncreasingAppend | src/main/java/com/et/monotone/IdGenerator.java:5-8 | appending an ID above the last one keeps the issued sequence increasing |
| Common.FlattenAbove | src/main/java/com/et/monotone/IdGenerator.java:5-8 | the IDs of ascending blocks all lie at or above the first block's start |
| Common.FlattenIncreasing | src/main/java/com/et/monotone/IdGenerator.java:5-8 | blocks that each start at or after the previous one's end yield strictly increasing IDs |
| Common.ClosedLeaseIssues | src/main/java/com/et/monotone/ZKGenerator.java:40-47 | a closed lease `[c, c+n]` with the cursor at `c+1` issues exactly `n` IDs, `c+1 .. c+n`: everything in the range except its lower end |
| Common.ClosedLeasesNeverRepeat | src/main/java/com/et/monotone/ZKGenerator.java:61-72 | closed leases read from a counter that advances by at least a block between reads issue disjoint, increasing IDs, although consecutive ranges share an endpoint |
| Common.CounterPath | src/main/java/com/et/monotone/zk/ZKGenerator.java:209 | the counter path is `rootPath + "/" + counterName`, with a null part written "null" as Java concatenation does |
| Remote.DrawAfter | src/main/java/com/et/monotone/zk/ZKGenerator.java:101-105 | the outcome of the attempt at index `i` is the next draw from what is left of the script after `i` draws |
| Remote.Counter.constructor | src/main/java/com/et/monotone/zk/ZKGenerator.java:39 | a counter starts at its initial value with its script of outcomes and an empty call log |
| Remote.Counter.Draw | src/main/java/com/et/monotone/zk/ZKGenerator.java:105 | `succeeded()` is the next scripted outcome, which is consumed; an exhausted script fails |
| Remote.Counter.Get | src/main/java/com/et/monotone/zk/ZKGenerator.java:55 | `get().postValue()` returns the value and logs a read |
| Remote.Counter.TrySet | src/main/java/com/et/monotone/zk/ZKGenerator.java:56 | `trySet` writes the value |
| Remote.Counter.Add | src/main/java/com/et/monotone/zk/ZKGenerator.java:103-106 | `add` consumes one outcome; on success the value moves by `delta` and `postValue` is the new value, on failure nothing moves |
| Remote.Counter.CompareAndSet | src/main/java/com/et/monotone/ZKGenerator.java:67 | `compareAndSet` consumes one outcome and writes only when granted and the value still equals `expected` |
| Remote.Counter.Set | src/main/java/com/et/monotone/redis/RedisGenerator.java:32 | Redis `SET` overwrites the key whatever it held |
| Remote.Counter.IncrBy | src/main/java/com/et/monotone/redis/RedisGenerator.java:63 | Redis `INCRBY` always advances the key by `delta` |
| Zk.LeaseIssues | src/main/java/com/et/monotone/zk/ZKGenerator.java:103-110 | a lease taken at counter value `v >= 0` starts at `max(1, v)`, never at 0; its IDs are exactly the range's members; it holds `maxIdsToFetch` IDs, one fewer for the first lease from an empty counter |
| Zk.LeasesNeverRepeat | src/main/java/com/et/monotone/zk/ZKGenerator.java:105-110 | leases from a counter that only grows, by at least a block between leases, issue strictly increasing IDs |
| Zk.SingleIncrementLease | src/test/java/com/et/monotone/zk/ZkGeneratorTest.java:41-55 | an add returning 10 with the default block of 1000 installs `[1, 10)`, so the first ID is 1, not 0 |
| Zk.FirstSuccess | src/main/java/com/et/monotone/zk/ZKGenerator.java:101-114 | the attempt on which the retry loop stops: within `maxAttempts` and the script, granted, with every earlier attempt lost; `None` exactly when none of the first `maxAttempts` draws is granted |
| Zk.FirstSuccessAt | src/main/java/com/et/monotone/zk/ZKGenerator.java:101-112 | a granted attempt preceded only by lost ones is the one the loop stops on |
| Zk.ZKGenerator.constructor | src/main/java/com/et/monotone/zk/ZKGenerator.java:42-51 | starts unleased with the cursor at 0, keeps the block size and attempts, and seeds the counter as `InitValueInZkIfNeeded` does |
| Zk.ZKGenerator.InitValueInZkIfNeeded | src/main/java/com/et/monotone/zk/ZKGenerator.java:53-61 | one read, then `trySet(seed)` only when the counter reads 0; a nonzero value is left as it was |
| Zk.ZKGenerator.GetAndIncrement | src/main/java/com/et/monotone/zk/ZKGenerator.java:76 | returns the cursor and advances it by one |
| Zk.ZKGenerator.NextId | src/main/java/com/et/monotone/zk/ZKGenerator.java:71-84 | a returned ID is at least 1, lies in the installed range, is above every earlier ID, and leaves the cursor one past it. With the cursor in the range there is no remote call. Otherwise it leases, returning `max(1, v)` for counter value `v` on the first granted add, or fails with the attempts error when the first `maxAttempts` adds are all lost, leaving a zero cursor at 0 and advancing any other cursor by one |
| Zk.ZKGenerator.ServeFrom | src/main/java/com/et/monotone/zk/ZKGenerator.java:76-83 | the `while` loop: a drawn value inside the range is returned as is; otherwise the loop refreshes until the drawn value lies in the new range, or passes on the attempts error with range and cursor unchanged |
| Zk.ZKGenerator.RefreshAndSetNewRange | src/main/java/com/et/monotone/zk/ZKGenerator.java:94-122 | a no-op when the cursor lies in the range. Otherwise it succeeds exactly when one of the first `maxAttempts` adds is granted, and then installs `[max(1, end - n), end)` with the cursor at its lower bound. On failure it makes exactly `maxAttempts` adds and leaves the range, cursor and counter value as they were |
| Zk.Builder.constructor | src/main/java/com/et/monotone/zk/ZKGenerator.java:125-135 | defaults: 1000 IDs per lease, 5 attempts, seed 0, root `/monotone/id_gen`, name `default`, no counter handed in |
| Zk.Builder.SetCounterName | src/main/java/com/et/monotone/zk/ZKGenerator.java:146-151 | as written: the null check tests `rootPath`, so every name, null included, is accepted |
| Zk.Builder.SetCounterNameChecked | src/main/java/com/et/monotone/zk/ZKGenerator.java:142-151 | as documented: accepted exactly when the name is not null; otherwise fails with "counterName cannot be null" and keeps the old name |
| Zk.Builder.SetRootPath | src/main/java/com/et/monotone/zk/ZKGenerator.java:158-163 | accepted exactly when not null; otherwise fails with "rootPath cannot be null" and keeps the old root |
| Zk.Builder.SetMaxIdsToFetch | src/main/java/com/et/monotone/zk/ZKGenerator.java:169-174 | accepted exactly when `> 0`; otherwise fails with "maxIdsToFetch needs to be > 0" and keeps the old value |
| Zk.Builder.SetMaxAttempts | src/main/java/com/et/monotone/zk/ZKGenerator.java:181-186 | accepted exactly when `> 0`; otherwise fails with "maxAttempts needs to be > 0" and keeps the old value |
| Zk.Builder.SetSeed | src/main/java/com/et/monotone/zk/ZKGenerator.java:193-198 | accepted exactly when `>= 0`; otherwise fails with "seed needs to be >= 0" and keeps the old value |
| Zk.Builder.SetDistributedAtomicLong | src/main/java/com/et/monotone/zk/ZKGenerator.java:200-204 | the test hook stores the counter to build over |
| Zk.Builder.Build | src/main/java/com/et/monotone/zk/ZKGenerator.java:206-213 | builds over the handed-in counter, or over the counter at the path when none was handed in, with the builder's settings and the seed applied only over a 0 |
| ZkScenarios.BuildOver | src/test/java/com/et/monotone/zk/ZkGeneratorTest.java:77-78 | a builder given the test's counter, block size and seed builds an unleased generator over that counter |
| ZkScenarios.FirstIdFromEmptyCounter | src/main/java/com/et/monotone/zk/ZKGenerator.java:103-110 | on an empty counter with the defaults, the first ID is 1 and the counter then holds 1000 |
| ZkScenarios.RemoteIncrement | src/test/java/com/et/monotone/zk/ZkGeneratorTest.java:63-84 | block 2 on a counter at 100, adds ending at 102 and 104: the four IDs are 100, 101, 102, 103, all in `[100, 104)` |
| ZkScenarios.DrainLease | src/main/java/com/et/monotone/zk/ZKGenerator.java:76-81 | after a lease from a counter at `v`, successive `nextId` calls hand out exactly the lease's block `max(1, v) .. v + n - 1` of consecutive IDs (`Common.Ids` of `Zk.LeaseBlock`) |
| ZkScenarios.SeededGenerator | src/test/java/com/et/monotone/zk/ZkGeneratorTest.java:86-113 | seed 5 over an empty counter is written, and the first ID is 5 |
| ZkScenarios.SeedIgnoredForExistingValue | src/test/java/com/et/monotone/zk/ZkGeneratorTest.java:116-137 | seed 5 over a counter at 7 is ignored, and the first ID is 7 |
| ZkScenarios.RetryThenLease | src/main/java/com/et/monotone/zk/ZKGenerator.java:101-112 | two lost adds and a granted third still give ID 1 |
| ZkScenarios.AttemptsExhaustedAfterFive | src/main/java/com/et/monotone/zk/ZKGenerator.java:101-117 | five lost adds exhaust the default attempts: `nextId` fails, the counter is untouched and the sixth outcome is never drawn |
| ZkScenarios.TwoGeneratorsShareCounter | src/main/java/com/et/monotone/zk/ZKGenerator.java:27-29 | two instances on one counter hand out 1, 2, 4, 3: no ID twice, though not increasing across instances |
| ZkScenarios.BuilderDefaultsAndChecks | src/main/java/com/et/monotone/zk/ZKGenerator.java:125-198 | the default path, attempts, block and seed, and the four setters refusing a bad argument with their messages |
| ZkScenarios.CustomPath | src/main/java/com/et/monotone/zk/ZKGenerator.java:138-140 | root `/id_gen/my_app` and name `my_counter` give `/id_gen/my_app/my_counter` |
| ZkScenarios.NullCounterNameAccepted | src/main/java/com/et/monotone/zk/ZKGenerator.java:147 | as written, a null name passes and the path ends in `/null` |
| ZkScenarios.NullCounterNameRefused | src/main/java/com/et/monotone/zk/ZKGenerator.java:142 | with the documented check, a null name is refused and the path keeps its default |
| LegacyZk.ZKGenerator.constructor | src/main/java/com/et/monotone/ZKGenerator.java:20-33 | starts unleased with the cursor at 0; writes 0 only over a 0, so the counter value is unchanged either way |
| LegacyZk.ZKGenerator.GetAndIncrement | src/main/java/com/et/monotone/ZKGenerator.java:40 | returns the cursor and advances it by one |
| LegacyZk.ZKGenerator.NextId | src/main/java/com/et/monotone/ZKGenerator.java:35-48 | callable whenever the cursor lies in the range, and otherwise when some scripted compare-and-set will go through. A returned ID lies strictly inside the closed range above its lower end, is above every earlier ID, and leaves the cursor one past it. With the cursor in the range there is no remote call. Otherwise it returns `c + 1` for the counter value `c` and installs `[c, c + n]`; failed compare-and-sets change nothing, and when the first is granted the only calls are one read and one compare-and-set |
| LegacyZk.ZKGenerator.ServeFrom | src/main/java/com/et/monotone/ZKGenerator.java:40-47 | the `while` loop: keeps refreshing while the drawn value lies outside the range, ending once some scripted compare-and-set goes through |
| LegacyZk.ZKGenerator.Refresh | src/main/java/com/et/monotone/ZKGenerator.java:54-83 | a no-op when the cursor lies in the range. Otherwise exactly one read and one compare-and-set from `c` to `c + n`, with no retry. When granted it installs `[c, c + n]` with the cursor at `c + 1`; when lost, range, cursor and counter are as they were |
| LegacyZk.Builder.constructor | src/main/java/com/et/monotone/ZKGenerator.java:85-93 | defaults: 1000 IDs per lease, root `/monotone/id_gen`, name `default` |
| LegacyZk.Builder.SetCounterName | src/main/java/com/et/monotone/ZKGenerator.java:95-98 | stores the name unchecked |
| LegacyZk.Builder.SetRootPath | src/main/java/com/et/monotone/ZKGenerator.java:100-103 | stores the root unchecked |
| LegacyZk.Builder.SetMaxIdsToFetch | src/main/java/com/et/monotone/ZKGenerator.java:105-108 | stores the block size unchecked |
| LegacyZk.Builder.Build | src/main/java/com/et/monotone/ZKGenerator.java:110-112 | builds an unleased generator over the counter at the path, with the value left as it was |
| LegacyZkScenarios.SharedEndpointNotReissued | src/main/java/com/et/monotone/ZKGenerator.java:61-72 | block 3 from 0: the lease `[0, 3]` issues 1, 2, 3, and the next lease `[3, 6]` issues 4, not its shared endpoint 3 |
| LegacyZkScenarios.DrainClosedLease | src/main/java/com/et/monotone/ZKGenerator.java:40-47 | after a lease `[c, c + n]`, successive `nextId` calls hand out exactly `c + 1 .. c + n` (`Common.Ids` of `Common.ClosedLeaseBlock`) |
| LegacyZkScenarios.FastPathNeedsNoGrant | src/main/java/com/et/monotone/ZKGenerator.java:36-47 | with a lease held, `nextId` serves the cursor although no compare-and-set in the script is left to go through |
| LegacyZkScenarios.LostCompareAndSet | src/main/java/com/et/monotone/ZKGenerator.java:42-45 | lost compare-and-sets are retried by `nextId` until one goes through, and the first ID is still 1 |
| LegacyZkScenarios.ConstructorKeepsValue | src/main/java/com/et/monotone/ZKGenerator.java:27-29 | construction leaves a counter at 0 at 0 and a counter at 42 at 42 |
| LegacyZkScenarios.UncheckedBuilder | src/main/java/com/et/monotone/ZKGenerator.java:95-108 | a null name reads "null" in the path and a negative block size is stored |
| Redis.RedisGenerator.constructor | src/main/java/com/et/monotone/redis/RedisGenerator.java:19-27 | construction calls `nextId`: whatever the key held, it is reset to 0, `[0, n]` is leased, ID 1 is spent and the cursor stands at 2 |
| Redis.RedisGenerator.Resuming | src/main/java/com/et/monotone/redis/RedisGenerator.java:19-27 | the same construction without the reset: the first lease starts at the key's current value |
| Redis.RedisGenerator.GetAndIncrement | src/main/java/com/et/monotone/redis/RedisGenerator.java:36 | returns the cursor and advances it by one |
| Redis.RedisGenerator.NextId | src/main/java/com/et/monotone/redis/RedisGenerator.java:30-44 | a returned ID lies in the range above its lower end and leaves the cursor one past it; while the key has not been moved back below this instance (`Monotone()`), it is above every earlier ID of this instance and `Monotone()` still holds after. On a zero cursor the key is reset to 0 and ID 1 is served. With the cursor in the range there is no remote call. Otherwise one read and one `INCRBY`, serving `c + 1` |
| Redis.RedisGenerator.NextIdKeepingCounter | src/main/java/com/et/monotone/redis/RedisGenerator.java:30-44 | `nextId` without the reset: on a zero cursor it leases from where the key stands, and the key never moves backwards |
| Redis.RedisGenerator.ServeFrom | src/main/java/com/et/monotone/redis/RedisGenerator.java:36-43 | the `while` loop: a drawn value outside the range triggers one refresh, after which the drawn value `c + 1` lies in `[c, c + n]`, so the body runs at most once |
| Redis.RedisGenerator.Refresh | src/main/java/com/et/monotone/redis/RedisGenerator.java:50-77 | a no-op when the cursor lies in the range. Otherwise one read of `c` and one `INCRBY` of the block size, installing `[c, c + n]` with the cursor at `c + 1`, all on the first pass of the attempt loop; the max-attempts error is unreachable |
| Redis.Builder.constructor | src/main/java/com/et/monotone/redis/RedisGenerator.java:79-86 | defaults: 1000 IDs per lease, key `default` |
| Redis.Builder.SetCounterName | src/main/java/com/et/monotone/redis/RedisGenerator.java:88-91 | stores the key unchecked |
| Redis.Builder.SetMaxIdsToFetch | src/main/java/com/et/monotone/redis/RedisGenerator.java:93-96 | stores the block size unchecked |
| Redis.Builder.Build | src/main/java/com/et/monotone/redis/RedisGenerator.java:98-100 | builds a generator that has already spent ID 1 from a key reset to 0 |
| RedisScenarios.RunBlockOfThree | src/main/java/com/et/monotone/redis/RedisGenerator.java:59-67 | over a key at 0, block 3: construction spends 1, the caller gets 2 and 3, then the lease `[3, 6]` gives 4 with the cursor at 5 and the key at 6 |
| RedisScenarios.FirstIdAfterConstruction | src/main/java/com/et/monotone/redis/RedisGenerator.java:19-27 | for any key value and any block of at least 1, the first ID a caller gets is 2 |
| RedisScenarios.BlockOfThree | src/main/java/com/et/monotone/redis/RedisGenerator.java:59-67 | block 3 from 0: the caller gets 2 and 3, then the lease `[3, 6]` gives 4 and the key holds 6 |
| RedisScenarios.ResetReissuesIds | src/main/java/com/et/monotone/redis/RedisGenerator.java:31-33 | as written, a second generator on the same key hands out the same first ID, 2 |
| RedisScenarios.ResetRepeatsWithinInstance | src/main/java/com/et/monotone/redis/RedisGenerator.java:31-33 | as written, a second generator's reset makes a running one lease `[3, 6]` twice: block 3 gives 2, 3, 4, 5, 6, 4 from one instance |
| RedisScenarios.CorrectedInstancesDistinct | src/main/java/com/et/monotone/redis/RedisGenerator.java:31-33 | without the reset, a second generator's first ID lies above the first generator's |

## Left out

- `Driver.java`, the benchmark loop against a live ZooKeeper, is not part of this model. Neither are the `IdGenerator` interface itself and `newBuilder`'s check that the Curator client is started (`zk/ZKGenerator.java:86-92`). These are I/O wiring.
- Curator's `DistributedAtomicLong` and its `RetryNTimes` policy, and the Jedis client, are replaced by `Remote.Counter`. The string round trip of Redis `GET`/`SET` and its parse failures are not modelled.
- `trySet`, `SET`, `GET` and `INCRBY` always succeed. Only `add` and `compareAndSet` consult the script of outcomes.
- Exceptions thrown by the remote calls, and their propagation through `Throwables.propagate` or `printStackTrace`, are not modelled, apart from the attempts error of the current generator, which is `Err(AttemptsExhausted(maxAttempts))`.
- `synchronized (idCounter)` and `AtomicLong` atomicity: the model is sequential. Other instances' activity on the shared counter appears only as the counter's value between calls, as in `ZkScenarios.TwoGeneratorsShareCounter`.
- `System.out`/`System.err` output and `Thread.sleep(5000)` in the older refresh (`ZKGenerator.java:58-59,74,77`) are left out.
- Java `long` and `int` wrap-around: integers are unbounded.
- Guava `Range` is reduced to its membership test; its rejection of an inverted range is not modelled, and the members below require what keeps every range well formed.
- Zk.ZKGenerator.constructor: requires the counter to read at least 0. For a negative value `v` the Java throws only when `v + maxIdsToFetch < 1` (Guava refuses `closedOpen(1, v + maxIdsToFetch)`); for `-maxIdsToFetch < v < 0` it serves from 1. Negative counters are left out because the invariant keeps every range's upper end at or below the counter, which the initial range `[0, 0)` breaks over a negative counter.
- Zk.Builder.Build: requires the counter to read at least 0, for the same reason.
- LegacyZk.Builder.Build: requires `maxIdsToFetch >= 1`, which the builder does not check. With 0 the generator's `nextId` never returns, and with a negative value Guava throws after the counter has moved.
- LegacyZk.ZKGenerator.constructor: requires `maxIdsToFetch >= 1`, for the same reason.
- Redis.Builder.Build: requires `maxIdsToFetch >= 1`, for the same reason.
- Redis.RedisGenerator.constructor: requires `maxIdsToFetch >= 1`, for the same reason.
- The `rootPath` and `counterName` parameters of the current generator's private constructor are unused there, and are not modelled. The older generator's constructor creates its counter at the path. That counter is passed in, with `Path()` giving where it lives.
- The first unit test mocks `add` to return a post-value of 10 unrelated to the counter's value. A counter whose add returns anything else is not modelled, so that test is `Zk.SingleIncrementLease`, a lemma on the lease arithmetic. In `ZkScenarios.RemoteIncrement` the counter reaches 102 and 104 by real adds.
- LegacyZk.ZKGenerator.NextId: when it has to lease, termination is proved only for scripts in which some compare-and-set is granted (`true in outcomes`), because the source's loop has no bound; with the cursor in the range it needs nothing of the script. The contract does not say which draw went through, only that the script shrank and that a granted first draw costs exactly one read and one compare-and-set.
- LegacyZk.ZKGenerator.ServeFrom: same as `NextId`, which it serves.
- Redis.RedisGenerator.NextId: strictly increasing IDs are promised only while `Monotone()` holds, that is, while the key has not been moved back below this instance's range. Another instance's reset moves it back, and the Java then repeats IDs within one instance (`RedisScenarios.ResetRepeatsWithinInstance`); the model serves those calls but promises no order for them.
- Zk.ZKGenerator.NextId: which ID a successful lease returns is stated only when the lease is non-empty, that is, when the counter held at least 1 or the block is at least 2. A block of 1 on an empty counter leases `[1, 1)`, and the loop then leases again.
- Behaviours of the code that a reader of the `IdGenerator` doc comment ("a guaranteed unique 64bit integer that is monotonically increasing") or of the builders might not expect, and that the model keeps as the code has them:
  - The older generator does not retry inside a refresh; its `nextId` retries with no bound.
  - Only the current builder checks its arguments; the older and the Redis builders store any value.
  - The current generator's first lease from an empty counter holds `maxIdsToFetch - 1` IDs, not `maxIdsToFetch`, because ID 0 is skipped (`Zk.LeaseIssues`).
  - The current generator's `nextId` can fail with the attempts error instead of returning an ID.
  - IDs increase per instance only; instances sharing a counter hand out distinct IDs that interleave (`ZkScenarios.TwoGeneratorsShareCounter`).

## Findings

| source | as written | input that shows it | evidently intended | confidence | as-written member | corrected member |
|---|---|---|---|---|---|---|
| src/main/java/com/et/monotone/zk/ZKGenerator.java:147 | `setCounterName` null-checks `rootPath`, which is never null, so a null counter name is accepted | `setCounterName(null)` then `build()`: the counter is created at `/monotone/id_gen/null` | refuse a null counter name with "counterName cannot be null", as the method's doc comment says | not executed | ZkScenarios.NullCounterNameAccepted | Zk.Builder.SetCounterNameChecked |
| src/main/java/com/et/monotone/redis/RedisGenerator.java:31-33 | every new instance, or a restart, resets the shared key to 0 before its first lease, so IDs repeat across instances and also within an instance that is already running | two generators built one after the other on the same key: both hand out 2 first; and with block 3 a running instance hands out 2, 3, 4, 5, 6, 4 once a second is built | lease from the key's current value, so that instances never hand out the same ID | not executed | RedisScenarios.ResetReissuesIds | RedisScenarios.CorrectedInstancesDistinct |

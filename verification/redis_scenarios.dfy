/**
 * Runs of the Redis generator against the model: the ID its constructor
 * spends, a lease that runs out, and two generators on one key, as written
 * and with the reset left out.
 */
module RedisScenarios {
  import opened Common
  import opened Remote
  import opened Redis

  /** Whatever the key held and whatever the block size, the first ID a caller gets is 2. */
  method FirstIdAfterConstruction(initial: int, n: int) returns (id: int)
    requires n >= 1
    ensures id == 2
  {
    var key := new Counter(initial, []);
    var b := new Builder();
    b.SetMaxIdsToFetch(n);
    var g := b.Build(key);
    id := g.NextId();
  }

  /**
   * Block 3 on a key at 0: the constructor spends 1, the caller gets 2 and
   * 3, then the lease `[3, 6]` gives 4.
   */
  method RunBlockOfThree(key: Counter) returns (g: RedisGenerator, ids: seq<int>)
    requires key.value == 0
    modifies key
    ensures fresh(g) && g.Valid() && g.client == key && g.maxIdsToFetch == 3
    ensures ids == [2, 3, 4] && g.idRange == Closed(3, 6) && g.idCounter == 5 && key.value == 6
  {
    var b := new Builder();
    b.SetMaxIdsToFetch(3);
    g := b.Build(key);
    var a := g.NextId();
    assert a == 2 && g.idCounter == 3 && key.value == 3;
    var c := g.NextId();
    assert c == 3 && g.idCounter == 4;
    var d := g.NextId();
    ids := [a, c, d];
  }

  /** Block 3: the constructor spends 1, the caller gets 2 and 3, then the lease `[3, 6]` gives 4. */
  method BlockOfThree() returns (ids: seq<int>, range: Range, stored: int)
    ensures ids == [2, 3, 4] && range == Closed(3, 6) && stored == 6
  {
    var key := new Counter(0, []);
    var g;
    g, ids := RunBlockOfThree(key);
    range, stored := g.idRange, key.value;
  }

  /**
   * As written: a second generator on the same key (or the same service
   * restarted) resets the key to 0 and hands out the IDs the first one
   * already handed out.
   */
  method ResetReissuesIds(initial: int, n: int) returns (first: int, second: int)
    requires n >= 1
    ensures first == 2 && second == 2
  {
    var key := new Counter(initial, []);
    var b := new Builder();
    b.SetMaxIdsToFetch(n);
    var g := b.Build(key);
    first := g.NextId();
    var h := b.Build(key);
    second := h.NextId();
  }

  /**
   * As written, the reset also hurts an instance that is already running:
   * with block 3, `g` hands out 2, 3, 4 and holds `[3, 6]` with the key at 6;
   * a second generator on the key resets it and leases `[0, 3]`, so when `g`
   * runs out after 5 and 6 it reads 3 again, leases `[3, 6]` a second time
   * and hands out 4 again.
   */
  method ResetRepeatsWithinInstance() returns (ids: seq<int>)
    ensures ids == [2, 3, 4, 5, 6, 4]
  {
    var key := new Counter(0, []);
    var g, first := RunBlockOfThree(key);
    var h := new RedisGenerator(key, "default", 3);
    assert key.value == 3 && g.Valid() && g.idRange == Closed(3, 6) && g.idCounter == 5;
    var a4 := g.NextId();
    assert a4 == 5 && g.idCounter == 6 && g.idRange == Closed(3, 6) && key.value == 3;
    var a5 := g.NextId();
    assert a5 == 6 && g.idCounter == 7 && g.idRange == Closed(3, 6) && key.value == 3;
    var a6 := g.NextId();
    ids := first + [a4, a5, a6];
  }

  /**
   * Without the reset: a second generator on the same key leases past
   * everything the first one has handed out, so its IDs are larger.
   */
  method CorrectedInstancesDistinct(initial: int, n: int) returns (first: int, second: int)
    requires initial >= 0 && n >= 1
    ensures first == initial + 2 && first < second
  {
    var key := new Counter(initial, []);
    var g := new RedisGenerator.Resuming(key, "default", n);
    first := g.NextIdKeepingCounter();
    var h := new RedisGenerator.Resuming(key, "default", n);
    second := h.NextIdKeepingCounter();
  }
}

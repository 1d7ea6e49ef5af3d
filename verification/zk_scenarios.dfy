/**
 * The unit tests of the current ZooKeeper generator, and a few runs beyond
 * them, replayed against the model: each scenario builds a generator over a
 * fresh counter with a given add script and states the IDs it hands out.
 */
module ZkScenarios {
  import opened Common
  import opened Remote
  import opened Zk

  /**
   * What every test does first: a default builder with the test's counter
   * handed in, the block size and seed set, then `build`.
   */
  method BuildOver(counter: Counter, n: int, seed: int) returns (g: ZKGenerator)
    requires n > 0 && seed >= 0 && counter.value >= 0
    modifies counter
    ensures fresh(g) && g.Valid()
    ensures g.zkCounter == counter && g.maxIdsToFetch == n && g.maxAttempts == 5
    ensures g.idRange == Unleased && g.idCounter == 0 && g.issued == []
    ensures counter.value == Seeded(old(counter.value), seed)
    ensures counter.outcomes == old(counter.outcomes)
  {
    var b := new Builder();
    b.SetDistributedAtomicLong(counter);
    var _ := b.SetMaxIdsToFetch(n);
    var _ := b.SetSeed(seed);
    g := b.Build(counter);
  }

  /** A default generator on an empty counter: the first ID is 1, never 0. */
  method FirstIdFromEmptyCounter() returns (id: Result<int>, stored: int)
    ensures id == Ok(1) && stored == 1000
  {
    var counter := new Counter(0, [true]);
    var g := BuildOver(counter, 1000, 0);
    id := g.NextId();
    stored := counter.value;
  }

  /**
   * Block 2 over a counter at 100 whose adds go through: the adds end at 102
   * and 104, and the four IDs are 100 .. 103, all inside [100, 104).
   */
  method RemoteIncrement() returns (ids: seq<Result<int>>)
    ensures ids == [Ok(100), Ok(101), Ok(102), Ok(103)]
    ensures forall i :: 0 <= i < |ids| ==> ids[i].Ok? && ClosedOpen(100, 104).Contains(ids[i].value)
  {
    var counter := new Counter(100, [true, true]);
    var g := BuildOver(counter, 2, 0);
    assert FirstSuccess([true, true], 5) == Some(0);
    var a := g.NextId();
    assert a == Ok(100) && counter.outcomes == [true];
    assert counter.value == 102 && g.idRange == ClosedOpen(100, 102) && g.idCounter == 101;
    var c := g.NextId();
    assert c == Ok(101) && g.idCounter == 102;
    assert FirstSuccess([true], 5) == Some(0);
    var d := g.NextId();
    assert d == Ok(102);
    assert counter.value == 104 && g.idRange == ClosedOpen(102, 104) && g.idCounter == 103;
    var e := g.NextId();
    ids := [a, c, d, e];
  }

  /**
   * A lease drained to its end: after the first `NextId` leases from a
   * counter at `v`, the calls that follow are served from the range without
   * a remote call, and together they hand out exactly the lease's block of
   * consecutive IDs, `max(1, v) .. v + n - 1`.
   */
  method DrainLease(v: int, n: int) returns (ids: seq<int>)
    requires v >= 0 && n >= 1 && (v >= 1 || n >= 2)
    ensures ids == Ids(LeaseBlock(v, n))
  {
    var counter := new Counter(v, [true]);
    var g := BuildOver(counter, n, 0);
    var lo := Max(1, v);
    var first := g.NextId();
    ids := [first.value];
    var k := 1;
    while lo + k < v + n
      invariant 1 <= k && lo + k <= v + n
      invariant g.Valid() && g.maxIdsToFetch == n
      invariant g.idRange == ClosedOpen(lo, v + n) && g.idCounter == lo + k
      invariant ids == Ids(Block(lo, lo + k))
      decreases v + n - k
    {
      var r := g.NextId();
      ids := ids + [r.value];
      k := k + 1;
    }
  }

  /** Seed 5 on an empty counter: the seed is written and is the first ID. */
  method SeededGenerator() returns (seeded: int, id: Result<int>)
    ensures seeded == 5 && id == Ok(5)
  {
    var counter := new Counter(0, [true]);
    var g := BuildOver(counter, 2, 5);
    seeded := counter.value;
    id := g.NextId();
  }

  /** Seed 5 on a counter already at 7: the seed is ignored and the first ID is 7. */
  method SeedIgnoredForExistingValue() returns (kept: int, id: Result<int>)
    ensures kept == 7 && id == Ok(7)
  {
    var counter := new Counter(7, [true]);
    var g := BuildOver(counter, 2, 5);
    kept := counter.value;
    id := g.NextId();
  }

  /** Two lost adds and a third that goes through still give ID 1. */
  method RetryThenLease() returns (id: Result<int>, left: seq<bool>)
    ensures id == Ok(1) && left == []
  {
    var counter := new Counter(0, [false, false, true]);
    var g := BuildOver(counter, 1000, 0);
    id := g.NextId();
    left := counter.outcomes;
  }

  /** Five lost adds exhaust the default attempts; the sixth outcome is never drawn. */
  method AttemptsExhaustedAfterFive() returns (id: Result<int>, stored: int, left: seq<bool>)
    ensures id == Err(AttemptsExhausted(5)) && stored == 0 && left == [true]
  {
    var counter := new Counter(0, [false, false, false, false, false, true]);
    var g := BuildOver(counter, 1000, 0);
    id := g.NextId();
    stored, left := counter.value, counter.outcomes;
  }

  /**
   * Two generators with block 2 on one counter: each serves its own leases,
   * so the IDs 1, 2, 4, 3 never collide although they do not increase across
   * instances.
   */
  method TwoGeneratorsShareCounter() returns (a1: Result<int>, b1: Result<int>, a2: Result<int>, b2: Result<int>)
    ensures a1 == Ok(1) && b1 == Ok(2) && a2 == Ok(4) && b2 == Ok(3)
  {
    var counter := new Counter(0, [true, true, true]);
    var g := BuildOver(counter, 2, 0);
    var h := BuildOver(counter, 2, 0);
    a1 := g.NextId();
    assert counter.value == 2 && counter.outcomes == [true, true];
    assert g.Valid() && g.idRange == ClosedOpen(1, 2) && g.idCounter == 2;
    b1 := h.NextId();
    assert counter.value == 4 && counter.outcomes == [true];
    assert h.idRange == ClosedOpen(2, 4) && h.idCounter == 3;
    assert g.Valid() && g.idRange == ClosedOpen(1, 2) && g.idCounter == 2;
    a2 := g.NextId();
    assert counter.value == 6;
    assert h.Valid() && h.idRange == ClosedOpen(2, 4) && h.idCounter == 3;
    b2 := h.NextId();
  }

  /** The builder's defaults, and each setter refusing an out-of-range argument. */
  method BuilderDefaultsAndChecks()
    returns (path: string, attempts: int, fetch: int, seed: int, rejected: seq<Outcome>)
    ensures path == "/monotone/id_gen/default" && attempts == 5 && fetch == 1000 && seed == 0
    ensures rejected == [Fail(IllegalArgument("maxIdsToFetch needs to be > 0")),
                         Fail(IllegalArgument("maxAttempts needs to be > 0")),
                         Fail(IllegalArgument("seed needs to be >= 0")),
                         Fail(NullArgument("rootPath cannot be null"))]
  {
    var b := new Builder();
    var r1 := b.SetMaxIdsToFetch(0);
    var r2 := b.SetMaxAttempts(-1);
    var r3 := b.SetSeed(-1);
    var r4 := b.SetRootPath(None);
    path, attempts, fetch, seed := b.Path(), b.maxAttempts, b.maxIdsToFetch, b.seed;
    rejected := [r1, r2, r3, r4];
  }

  /** The counter path follows the configured root and name. */
  method CustomPath() returns (path: string)
    ensures path == "/id_gen/my_app/my_counter"
  {
    var b := new Builder();
    var _ := b.SetRootPath(Some("/id_gen/my_app"));
    var _ := b.SetCounterNameChecked(Some("my_counter"));
    path := b.Path();
  }

  /** As written, a null counter name passes the check and names the node "null". */
  method NullCounterNameAccepted() returns (r: Outcome, path: string)
    ensures r == Pass && path == "/monotone/id_gen/null"
  {
    var b := new Builder();
    r := b.SetCounterName(None);
    path := b.Path();
  }

  /** With the check on the argument, a null name is refused and the path keeps its default. */
  method NullCounterNameRefused() returns (r: Outcome, path: string)
    ensures r == Fail(NullArgument("counterName cannot be null"))
    ensures path == "/monotone/id_gen/default"
  {
    var b := new Builder();
    r := b.SetCounterNameChecked(None);
    path := b.Path();
  }
}

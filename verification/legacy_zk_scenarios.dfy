/**
 * Runs of the older ZooKeeper generator against the model: closed leases
 * that share an endpoint, a lost compare-and-set, and the constructor's
 * write of 0.
 */
module LegacyZkScenarios {
  import opened Common
  import opened Remote
  import opened LegacyZk

  /**
   * Block 3 from an empty counter: the lease `[0, 3]` issues 1, 2, 3; the
   * next lease `[3, 6]` starts at the shared endpoint 3 but issues 4 first.
   */
  method SharedEndpointNotReissued() returns (ids: seq<int>, range: Range)
    ensures ids == [1, 2, 3, 4] && range == Closed(3, 6)
  {
    var counter := new Counter(0, [true, true]);
    var b := new Builder();
    b.SetMaxIdsToFetch(3);
    var g := b.Build(counter);
    var a := g.NextId();
    var c := g.NextId();
    var d := g.NextId();
    var e := g.NextId();
    ids, range := [a, c, d, e], g.idRange;
  }

  /**
   * A closed lease drained to its end: after the first `NextId` leases `[c,
   * c + n]`, the calls that follow are served without a remote call, and
   * together they hand out exactly `c + 1 .. c + n`.
   */
  method DrainClosedLease(c: int, n: int) returns (ids: seq<int>)
    requires n >= 1
    ensures ids == Ids(ClosedLeaseBlock(c, n))
  {
    var counter := new Counter(c, [true]);
    var b := new Builder();
    b.SetMaxIdsToFetch(n);
    var g := b.Build(counter);
    var first := g.NextId();
    ids := [first];
    var k := 1;
    while k < n
      invariant 1 <= k <= n
      invariant g.Valid() && g.maxIdsToFetch == n
      invariant g.idRange == Closed(c, c + n) && g.idCounter == c + 1 + k
      invariant ids == Ids(Block(c + 1, c + 1 + k))
    {
      var id := g.NextId();
      ids := ids + [id];
      k := k + 1;
    }
  }

  /** A compare-and-set that loses is retried by `NextId` itself; the lease is still read at 0. */
  method LostCompareAndSet() returns (id: int, stored: int, left: seq<bool>)
    ensures id == 1 && stored == 1000 && |left| < 3
  {
    var counter := new Counter(0, [false, false, true]);
    var b := new Builder();
    var g := b.Build(counter);
    id := g.NextId();
    stored, left := counter.value, counter.outcomes;
  }

  /**
   * Once a lease is held, `NextId` serves from it with no remote call, so it
   * needs no further compare-and-set to go through.
   */
  method FastPathNeedsNoGrant() returns (first: int, second: int, left: seq<bool>)
    ensures first == 1 && second == 2 && left == []
  {
    var counter := new Counter(0, [true]);
    var b := new Builder();
    var g := b.Build(counter);
    first := g.NextId();
    second := g.NextId();
    left := counter.outcomes;
  }

  /** The constructor's `trySet(0)` happens only over a 0 and never changes the value. */
  method ConstructorKeepsValue() returns (fresh0: int, existing: int)
    ensures fresh0 == 0 && existing == 42
  {
    var empty := new Counter(0, []);
    var used := new Counter(42, []);
    var b := new Builder();
    var _ := b.Build(empty);
    var _ := b.Build(used);
    fresh0, existing := empty.value, used.value;
  }

  /** No argument is checked: a null counter name reads "null" in the path. */
  method UncheckedBuilder() returns (path: string, fetch: int)
    ensures path == "/monotone/id_gen/null" && fetch == -5
  {
    var b := new Builder();
    b.SetCounterName(None);
    b.SetMaxIdsToFetch(-5);
    path, fetch := b.Path(), b.maxIdsToFetch;
  }
}

/**
 * The older ZooKeeper generator (the root package). It leases by reading the
 * counter and compare-and-setting it one block further, without retrying
 * inside a refresh, and installs the closed range `[c, c + maxIdsToFetch]`
 * with the cursor at `c + 1`. Its `NextId` refreshes until a lease goes
 * through, with no bound on the number of attempts.
 */
module LegacyZk {
  import opened Common
  import opened Remote

  class ZKGenerator {
    var idRange: Range
    var idCounter: int
    const maxIdsToFetch: int
    const zkCounter: Counter
    /** Every ID `NextId` has returned, in order. */
    ghost var issued: seq<int>

    ghost predicate Valid()
      reads this, zkCounter
    {
      && maxIdsToFetch >= 1
      && (idRange == Unleased
          || (idRange.Closed? && idRange.lo < idCounter && idRange.hi <= zkCounter.value))
      && Increasing(issued)
      && (issued != [] ==> Last(issued) < idCounter && Last(issued) <= zkCounter.value)
    }

    /**
     * The constructor, given the counter that lives at `rootPath + "/" +
     * counterName`: it writes 0 only over a 0, so the value is the same after.
     */
    constructor (zkCounter: Counter, maxIdsToFetch: int)
      requires maxIdsToFetch >= 1
      modifies zkCounter
      ensures Valid()
      ensures this.zkCounter == zkCounter && this.maxIdsToFetch == maxIdsToFetch
      ensures idRange == Unleased && idCounter == 0 && issued == []
      ensures zkCounter.value == old(zkCounter.value)
      ensures zkCounter.log == old(zkCounter.log) + [Call.Get]
                               + (if old(zkCounter.value) == 0 then [Call.TrySet(0)] else [])
      ensures zkCounter.outcomes == old(zkCounter.outcomes)
    {
      idCounter := 0;
      idRange := Unleased;
      this.maxIdsToFetch := maxIdsToFetch;
      this.zkCounter := zkCounter;
      issued := [];
      new;
      var current := zkCounter.Get();
      if current == 0 {
        zkCounter.TrySet(0);
      }
    }

    /** `AtomicLong.getAndIncrement` on the cursor. */
    method GetAndIncrement() returns (v: int)
      modifies this`idCounter
      ensures v == old(idCounter) && idCounter == v + 1
    {
      v := idCounter;
      idCounter := idCounter + 1;
    }

    /**
     * Serves the cursor, refreshing first when it is 0, and refreshes again
     * for as long as the value drawn lies outside the range. Once it has to
     * lease, it terminates only because some compare-and-set in the script
     * goes through.
     */
    method NextId() returns (id: int)
      requires Valid()
      requires idRange.Contains(idCounter) || true in zkCounter.outcomes
      modifies this`idRange, this`idCounter, this`issued, zkCounter
      ensures Valid()
      ensures idRange.Contains(id) && idRange.lo < id && idCounter == id + 1
      ensures issued == old(issued) + [id]
      ensures old(issued) != [] ==> Last(old(issued)) < id
      ensures zkCounter.value >= old(zkCounter.value)
      // the cursor lies in the range: no remote call
      ensures old(idRange.Contains(idCounter)) ==>
                id == old(idCounter) && idRange == old(idRange) && unchanged(zkCounter)
      // otherwise failed refreshes change nothing, and the first that goes through is served
      ensures !old(idRange.Contains(idCounter)) ==>
                && id == old(zkCounter.value) + 1
                && idRange == Closed(old(zkCounter.value), old(zkCounter.value) + maxIdsToFetch)
                && zkCounter.value == old(zkCounter.value) + maxIdsToFetch
                && |zkCounter.outcomes| < |old(zkCounter.outcomes)|
      // a first compare-and-set that goes through is the only remote call
      ensures !old(idRange.Contains(idCounter)) && Granted(old(zkCounter.outcomes)) ==>
                && zkCounter.outcomes == Drop(old(zkCounter.outcomes), 1)
                && zkCounter.log == old(zkCounter.log)
                   + [Call.Get, Call.CompareAndSet(old(zkCounter.value), old(zkCounter.value) + maxIdsToFetch)]
    {
      if idCounter == 0 {
        Refresh();
      }
      var nextId := GetAndIncrement();
      id := ServeFrom(nextId);
    }

    /**
     * The loop of `NextId`: while the value drawn from the cursor lies
     * outside the range, refreshes and draws again; then records the value
     * as issued.
     */
    method ServeFrom(nextId0: int) returns (id: int)
      requires Valid()
      requires nextId0 == idCounter - 1
      requires idRange == Unleased || idRange.lo < nextId0
      requires issued != [] ==> Last(issued) < nextId0
      requires idRange.Contains(nextId0) || true in zkCounter.outcomes
      modifies this`idRange, this`idCounter, this`issued, zkCounter
      ensures Valid()
      ensures idRange.Contains(id) && idRange.lo < id && idCounter == id + 1
      ensures issued == old(issued) + [id]
      ensures zkCounter.value >= old(zkCounter.value)
      ensures old(idRange.Contains(nextId0)) ==>
                id == nextId0 && idRange == old(idRange) && unchanged(zkCounter)
      ensures !old(idRange.Contains(nextId0)) ==>
                && id == old(zkCounter.value) + 1
                && idRange == Closed(old(zkCounter.value), old(zkCounter.value) + maxIdsToFetch)
                && zkCounter.value == old(zkCounter.value) + maxIdsToFetch
                && |zkCounter.outcomes| < |old(zkCounter.outcomes)|
      ensures !old(idRange.Contains(nextId0)) && Granted(old(zkCounter.outcomes)) ==>
                && zkCounter.outcomes == Drop(old(zkCounter.outcomes), 1)
                && zkCounter.log == old(zkCounter.log)
                   + [Call.Get, Call.CompareAndSet(old(zkCounter.value), old(zkCounter.value) + maxIdsToFetch)]
    {
      ghost var v0, n0 := zkCounter.value, |zkCounter.outcomes|;
      ghost var granted0 := Granted(zkCounter.outcomes);
      var nextId := nextId0;
      while !idRange.Contains(nextId)
        invariant Valid() && issued == old(issued)
        invariant nextId == idCounter - 1
        invariant idRange == Unleased || idRange.lo < nextId
        invariant issued != [] ==> Last(issued) < nextId
        invariant idRange.Contains(nextId) || true in zkCounter.outcomes
        invariant old(idRange.Contains(nextId0)) ==>
                    nextId == nextId0 && idRange == old(idRange) && unchanged(zkCounter)
        invariant !old(idRange.Contains(nextId0)) && !idRange.Contains(nextId) ==>
                    zkCounter.value == v0 && |zkCounter.outcomes| <= n0
        invariant !old(idRange.Contains(nextId0)) && idRange.Contains(nextId) ==>
                    && nextId == v0 + 1 && idRange == Closed(v0, v0 + maxIdsToFetch)
                    && zkCounter.value == v0 + maxIdsToFetch && |zkCounter.outcomes| < n0
        invariant !old(idRange.Contains(nextId0)) && granted0 && !idRange.Contains(nextId) ==>
                    unchanged(zkCounter)
        invariant !old(idRange.Contains(nextId0)) && granted0 && idRange.Contains(nextId) ==>
                    && zkCounter.outcomes == Drop(old(zkCounter.outcomes), 1)
                    && zkCounter.log == old(zkCounter.log) + [Call.Get, Call.CompareAndSet(v0, v0 + maxIdsToFetch)]
        decreases |zkCounter.outcomes|
      {
        if idRange != Unleased {
          PastRange(idRange, nextId);
        }
        Refresh();
        nextId := GetAndIncrement();
      }
      IncreasingAppend(issued, nextId);
      issued := issued + [nextId];
      id := nextId;
    }

    /**
     * Does nothing while the cursor lies in the range. Otherwise reads the
     * counter as `c` and compare-and-sets it to `c + maxIdsToFetch`, once; on
     * success installs `[c, c + maxIdsToFetch]` with the cursor at `c + 1`,
     * on failure leaves range and cursor as they were.
     */
    method Refresh()
      requires Valid()
      modifies this`idRange, this`idCounter, zkCounter
      ensures Valid() && issued == old(issued)
      ensures old(idRange.Contains(idCounter)) ==> unchanged(this, zkCounter)
      ensures !old(idRange.Contains(idCounter)) ==>
                && zkCounter.log == old(zkCounter.log)
                   + [Call.Get, Call.CompareAndSet(old(zkCounter.value), old(zkCounter.value) + maxIdsToFetch)]
                && zkCounter.outcomes == Drop(old(zkCounter.outcomes), 1)
      ensures !old(idRange.Contains(idCounter)) && Granted(old(zkCounter.outcomes)) ==>
                && idRange == Closed(old(zkCounter.value), old(zkCounter.value) + maxIdsToFetch)
                && idCounter == old(zkCounter.value) + 1
                && zkCounter.value == old(zkCounter.value) + maxIdsToFetch
      ensures !old(idRange.Contains(idCounter)) && !Granted(old(zkCounter.outcomes)) ==>
                && idRange == old(idRange) && idCounter == old(idCounter)
                && zkCounter.value == old(zkCounter.value)
    {
      if !idRange.Contains(idCounter) {
        var currentZkCount := zkCounter.Get();
        var newCount := currentZkCount + maxIdsToFetch;
        var succeeded := zkCounter.CompareAndSet(currentZkCount, newCount);
        if succeeded {
          idRange := Closed(currentZkCount, newCount);
          idCounter := currentZkCount + 1;
        }
      }
    }
  }

  class Builder {
    var maxIdsToFetch: int
    var rootPath: Option<string>
    var counterName: Option<string>

    constructor ()
      ensures maxIdsToFetch == 1000
      ensures rootPath == Some("/monotone/id_gen") && counterName == Some("default")
    {
      maxIdsToFetch := 1000;
      rootPath := Some("/monotone/id_gen");
      counterName := Some("default");
    }

    /** The path `build` creates the counter at; nothing is checked, so a null part reads "null". */
    function Path(): (path: string)
      reads this
    {
      CounterPath(rootPath, counterName)
    }

    method SetCounterName(counterName: Option<string>)
      modifies this`counterName
      ensures this.counterName == counterName
    {
      this.counterName := counterName;
    }

    method SetRootPath(rootPath: Option<string>)
      modifies this`rootPath
      ensures this.rootPath == rootPath
    {
      this.rootPath := rootPath;
    }

    method SetMaxIdsToFetch(maxIdsToFetch: int)
      modifies this`maxIdsToFetch
      ensures this.maxIdsToFetch == maxIdsToFetch
    {
      this.maxIdsToFetch := maxIdsToFetch;
    }

    /** Builds a generator over `atPath`, the counter that lives at `Path()`. */
    method Build(atPath: Counter) returns (g: ZKGenerator)
      requires maxIdsToFetch >= 1
      modifies atPath
      ensures fresh(g) && g.Valid()
      ensures g.zkCounter == atPath && g.maxIdsToFetch == maxIdsToFetch
      ensures g.idRange == Unleased && g.idCounter == 0 && g.issued == []
      ensures atPath.value == old(atPath.value) && atPath.outcomes == old(atPath.outcomes)
    {
      g := new ZKGenerator(atPath, maxIdsToFetch);
    }
  }
}

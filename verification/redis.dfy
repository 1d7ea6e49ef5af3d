/**
 * The Redis generator. It leases by reading the key as `c` and `INCRBY`-ing
 * it by `maxIdsToFetch`, with the closed-range convention `[c, c + n]` and the
 * cursor at `c + 1`. Whenever its cursor is 0 it first `SET`s the key to 0,
 * and its constructor calls `NextId` once, so that happens at construction.
 */
module Redis {
  import opened Common
  import opened Remote

  /** `MAX_ATTEMPTS`: the bound of the refresh loop, which never reaches its second pass. */
  const MaxAttempts := 5

  class RedisGenerator {
    var idRange: Range
    var idCounter: int
    const maxIdsToFetch: int
    const client: Counter
    /** The key; every call goes to this one key. */
    const counterName: string
    /** Every ID `NextId` has returned, in order, the one the constructor takes included. */
    ghost var issued: seq<int>

    /** What this instance keeps true whatever other generators do to the key. */
    ghost predicate Valid()
      reads this, client
    {
      && maxIdsToFetch >= 1
      && (idCounter == 0 ==> idRange == Unleased && issued == [])
      && (idCounter != 0 ==> idRange.Closed? && 0 <= idRange.lo < idCounter && client.value >= 0)
    }

    /**
     * The IDs issued so far increase, lie below `next`, and the key has not
     * been moved back below them or below the range. The generator's own
     * calls keep this; another instance's reset of the key breaks it.
     */
    ghost predicate MonotoneFrom(next: int)
      reads this, client
    {
      && Increasing(issued)
      && (issued != [] ==> Last(issued) < next && Last(issued) <= client.value)
      && (idCounter != 0 ==> idRange.hi <= client.value)
    }

    ghost predicate Monotone()
      reads this, client
    {
      MonotoneFrom(idCounter)
    }

    /**
     * Sets the fields and calls `NextId`, which resets the key to 0 and
     * leases `[0, maxIdsToFetch]`: ID 1 is spent here, whatever the key held.
     */
    constructor (client: Counter, counterName: string, maxIdsToFetch: int)
      requires maxIdsToFetch >= 1
      modifies client
      ensures Valid() && Monotone()
      ensures this.client == client && this.counterName == counterName
      ensures this.maxIdsToFetch == maxIdsToFetch
      ensures idRange == Closed(0, maxIdsToFetch) && idCounter == 2 && issued == [1]
      ensures client.value == maxIdsToFetch
      ensures client.log == old(client.log) + [Call.Set(0), Call.Get, Call.IncrBy(maxIdsToFetch)]
    {
      idCounter := 0;
      idRange := Unleased;
      this.maxIdsToFetch := maxIdsToFetch;
      this.client := client;
      this.counterName := counterName;
      issued := [];
      new;
      var _ := NextId();
    }

    /**
     * The same construction over `NextIdKeepingCounter`: the first lease
     * starts at the key's current value instead of 0.
     */
    constructor Resuming(client: Counter, counterName: string, maxIdsToFetch: int)
      requires maxIdsToFetch >= 1 && client.value >= 0
      modifies client
      ensures Valid() && Monotone()
      ensures this.client == client && this.counterName == counterName
      ensures this.maxIdsToFetch == maxIdsToFetch
      ensures idRange == Closed(old(client.value), old(client.value) + maxIdsToFetch)
      ensures idCounter == old(client.value) + 2 && issued == [old(client.value) + 1]
      ensures client.value == old(client.value) + maxIdsToFetch
    {
      idCounter := 0;
      idRange := Unleased;
      this.maxIdsToFetch := maxIdsToFetch;
      this.client := client;
      this.counterName := counterName;
      issued := [];
      new;
      var _ := NextIdKeepingCounter();
    }

    /** `AtomicLong.getAndIncrement` on the cursor. */
    method GetAndIncrement() returns (v: int)
      modifies this`idCounter
      ensures v == old(idCounter) && idCounter == v + 1
    {
      v := idCounter;
      idCounter := idCounter + 1;
    }

    /**
     * As written: on a zero cursor, overwrites the key with 0 and leases from
     * there; otherwise serves the cursor, refreshing while it lies outside
     * the range. The IDs increase for as long as nothing moves the key back.
     */
    method NextId() returns (id: int)
      requires Valid()
      modifies this`idRange, this`idCounter, this`issued, client
      ensures Valid()
      ensures idRange.Contains(id) && idRange.lo < id && idCounter == id + 1
      ensures issued == old(issued) + [id]
      ensures old(Monotone()) ==> Monotone()
      ensures old(Monotone()) && old(issued) != [] ==> Last(old(issued)) < id
      // a zero cursor: the key is reset, whatever it held, and ID 1 is served
      ensures old(idCounter) == 0 ==>
                && id == 1 && idRange == Closed(0, maxIdsToFetch)
                && client.value == maxIdsToFetch
                && client.log == old(client.log) + [Call.Set(0), Call.Get, Call.IncrBy(maxIdsToFetch)]
      // the cursor lies in the range: no remote call
      ensures old(idCounter) != 0 && old(idRange.Contains(idCounter)) ==>
                id == old(idCounter) && idRange == old(idRange) && unchanged(client)
      // otherwise one read and one increment
      ensures old(idCounter) != 0 && !old(idRange.Contains(idCounter)) ==>
                && id == old(client.value) + 1
                && idRange == Closed(old(client.value), old(client.value) + maxIdsToFetch)
                && client.value == old(client.value) + maxIdsToFetch
                && client.log == old(client.log) + [Call.Get, Call.IncrBy(maxIdsToFetch)]
    {
      if idCounter == 0 {
        client.Set(0);
        Refresh();
      }
      var nextId := GetAndIncrement();
      id := ServeFrom(nextId);
    }

    /**
     * As evidently intended: the same, without the reset, so a zero cursor
     * leases from wherever the key stands.
     */
    method NextIdKeepingCounter() returns (id: int)
      requires Valid() && client.value >= 0
      modifies this`idRange, this`idCounter, this`issued, client
      ensures Valid()
      ensures idRange.Contains(id) && idRange.lo < id && idCounter == id + 1
      ensures issued == old(issued) + [id]
      ensures old(Monotone()) ==> Monotone()
      ensures old(Monotone()) && old(issued) != [] ==> Last(old(issued)) < id
      ensures client.value >= old(client.value)
      ensures old(idRange.Contains(idCounter)) ==>
                id == old(idCounter) && idRange == old(idRange) && unchanged(client)
      ensures !old(idRange.Contains(idCounter)) ==>
                && id == old(client.value) + 1
                && idRange == Closed(old(client.value), old(client.value) + maxIdsToFetch)
                && client.value == old(client.value) + maxIdsToFetch
                && client.log == old(client.log) + [Call.Get, Call.IncrBy(maxIdsToFetch)]
    {
      if idCounter == 0 {
        Refresh();
      }
      var nextId := GetAndIncrement();
      id := ServeFrom(nextId);
    }

    /**
     * The loop of `NextId`: while the value drawn from the cursor lies
     * outside the range, refreshes and draws again; then records the value
     * as issued. A refresh always leases, so the loop body runs at most once.
     */
    method ServeFrom(nextId0: int) returns (id: int)
      requires Valid()
      requires nextId0 == idCounter - 1 && idRange.Closed? && idRange.lo < nextId0
      modifies this`idRange, this`idCounter, this`issued, client
      ensures Valid()
      ensures idRange.Contains(id) && idRange.lo < id && idCounter == id + 1
      ensures issued == old(issued) + [id]
      ensures old(MonotoneFrom(nextId0)) ==> Monotone()
      ensures old(idRange.Contains(nextId0)) ==>
                id == nextId0 && idRange == old(idRange) && unchanged(client)
      ensures !old(idRange.Contains(nextId0)) ==>
                && id == old(client.value) + 1
                && idRange == Closed(old(client.value), old(client.value) + maxIdsToFetch)
                && client.value == old(client.value) + maxIdsToFetch
                && client.log == old(client.log) + [Call.Get, Call.IncrBy(maxIdsToFetch)]
    {
      ghost var v0 := client.value;
      ghost var mono := MonotoneFrom(nextId0);
      ghost var refreshed := false;
      var nextId := nextId0;
      while !idRange.Contains(nextId)
        invariant Valid() && issued == old(issued)
        invariant nextId == idCounter - 1 && idRange.Closed? && idRange.lo < nextId
        invariant mono ==> MonotoneFrom(nextId)
        invariant old(idRange.Contains(nextId0)) ==> !refreshed
        invariant !refreshed ==> nextId == nextId0 && idRange == old(idRange) && unchanged(client)
        invariant refreshed ==>
                    && idRange.Contains(nextId)
                    && nextId == v0 + 1 && idRange == Closed(v0, v0 + maxIdsToFetch)
                    && client.value == v0 + maxIdsToFetch
                    && client.log == old(client.log) + [Call.Get, Call.IncrBy(maxIdsToFetch)]
        decreases if idRange.Contains(nextId) then 0 else 1
      {
        PastRange(idRange, nextId);
        Refresh();
        refreshed := true;
        nextId := GetAndIncrement();
      }
      if mono {
        IncreasingAppend(issued, nextId);
      }
      issued := issued + [nextId];
      id := nextId;
    }

    /**
     * Does nothing while the cursor lies in the range. Otherwise reads the key
     * as `c`, increments it by `maxIdsToFetch` and installs `[c, c +
     * maxIdsToFetch]` with the cursor at `c + 1`, all in the first pass of
     * its attempt loop; the error after the loop cannot be reached.
     */
    method Refresh()
      requires Valid() && client.value >= 0
      modifies this`idRange, this`idCounter, client
      ensures Valid() && issued == old(issued)
      ensures old(Monotone()) ==> Monotone()
      ensures old(idRange.Contains(idCounter)) ==> unchanged(this, client)
      ensures !old(idRange.Contains(idCounter)) ==>
                && idRange == Closed(old(client.value), old(client.value) + maxIdsToFetch)
                && idCounter == old(client.value) + 1
                && client.value == old(client.value) + maxIdsToFetch
                && client.log == old(client.log) + [Call.Get, Call.IncrBy(maxIdsToFetch)]
    {
      if idRange.Contains(idCounter) {
        return;
      }
      for i := 0 to MaxAttempts
        invariant i == 0
        invariant idRange == old(idRange) && idCounter == old(idCounter) && unchanged(client)
      {
        var currentRedisCount := client.Get();
        var newCount := currentRedisCount + maxIdsToFetch;
        client.IncrBy(maxIdsToFetch);
        idRange := Closed(currentRedisCount, newCount);
        idCounter := currentRedisCount + 1;
        return;
      }
      // "Could not reserve a range ...": every path has returned inside the loop
      assert false;
    }
  }

  class Builder {
    var maxIdsToFetch: int
    var counterName: string

    constructor ()
      ensures maxIdsToFetch == 1000 && counterName == "default"
    {
      maxIdsToFetch := 1000;
      counterName := "default";
    }

    method SetCounterName(counterName: string)
      modifies this`counterName
      ensures this.counterName == counterName
    {
      this.counterName := counterName;
    }

    method SetMaxIdsToFetch(maxIdsToFetch: int)
      modifies this`maxIdsToFetch
      ensures this.maxIdsToFetch == maxIdsToFetch
    {
      this.maxIdsToFetch := maxIdsToFetch;
    }

    method Build(client: Counter) returns (g: RedisGenerator)
      requires maxIdsToFetch >= 1
      modifies client
      ensures fresh(g) && g.Valid() && g.Monotone()
      ensures g.client == client && g.counterName == counterName && g.maxIdsToFetch == maxIdsToFetch
      ensures g.idRange == Closed(0, maxIdsToFetch) && g.idCounter == 2 && g.issued == [1]
      ensures client.value == maxIdsToFetch
    {
      g := new RedisGenerator(client, counterName, maxIdsToFetch);
    }
  }
}

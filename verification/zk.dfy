/**
 * The current ZooKeeper generator (package `zk`). It leases blocks by atomic
 * add on the shared counter, tries at most `maxAttempts` times per refresh, and
 * serves the half-open range `[max(1, end - maxIdsToFetch), end)` where `end`
 * is the counter's value after the add.
 */
module Zk {
  import opened Common
  import opened Remote

  /** The range a successful add with post-value `endRange` installs. */
  function LeaseRange(endRange: int, maxIdsToFetch: int): (r: Range) {
    ClosedOpen(Max(1, endRange - maxIdsToFetch), endRange)
  }

  /** The IDs a lease taken while the counter reads `v` lets the generator issue. */
  function LeaseBlock(v: int, maxIdsToFetch: int): (b: Block) {
    Block(LeaseRange(v + maxIdsToFetch, maxIdsToFetch).lo, v + maxIdsToFetch)
  }

  /**
   * A lease taken at counter value `v >= 0` starts at `max(1, v)`, so 0 is
   * never issued; it holds `maxIdsToFetch` IDs, except the first lease from an
   * empty counter, which loses ID 0 to the floor and holds one fewer.
   */
  lemma LeaseIssues(v: int, n: int)
    requires v >= 0 && n > 0
    ensures LeaseRange(v + n, n).lo == Max(1, v) >= 1
    ensures forall x :: x in Ids(LeaseBlock(v, n)) <==> LeaseRange(v + n, n).Contains(x)
    ensures |Ids(LeaseBlock(v, n))| == if v == 0 then n - 1 else n
  {
    var ids := Ids(LeaseBlock(v, n));
    forall x | LeaseRange(v + n, n).Contains(x) ensures x in ids {
      assert ids[x - Max(1, v)] == x;
    }
  }

  function LeaseBlocks(values: seq<int>, n: int): (bs: seq<Block>)
    ensures |bs| == |values|
    ensures forall i :: 0 <= i < |values| ==> bs[i] == LeaseBlock(values[i], n)
  {
    seq(|values|, i requires 0 <= i < |values| => LeaseBlock(values[i], n))
  }

  /**
   * If the counter only moves forward by at least a block between two leases
   * (other instances may add in between), the leases this generator takes
   * issue strictly increasing IDs: none is issued twice.
   */
  lemma LeasesNeverRepeat(values: seq<int>, n: int)
    requires n > 0
    requires forall i :: 0 <= i < |values| ==> values[i] >= 0
    requires AdvancesBy(values, n)
    ensures Increasing(Flatten(LeaseBlocks(values, n)))
  {
    FlattenIncreasing(LeaseBlocks(values, n));
  }

  /** The add result of the first test: post-value 10 with the default block of 1000. */
  lemma SingleIncrementLease()
    ensures LeaseRange(10, 1000) == ClosedOpen(1, 10)
    ensures LeaseRange(10, 1000).Contains(1) && !LeaseRange(10, 1000).Contains(0)
  {
  }

  /**
   * Which of the first `attempts` draws of a script is the first to succeed,
   * if any: the attempt on which a refresh's retry loop stops.
   */
  function FirstSuccess(outcomes: seq<bool>, attempts: int): (r: Option<nat>)
    ensures r.Some? ==> r.value < attempts && r.value < |outcomes| && outcomes[r.value]
    ensures r.Some? ==> forall j :: 0 <= j < r.value ==> !outcomes[j]
    ensures r.None? <==> forall j :: 0 <= j < attempts && j < |outcomes| ==> !outcomes[j]
    decreases attempts
  {
    if attempts <= 0 || outcomes == [] then None
    else if outcomes[0] then Some(0)
    else match FirstSuccess(outcomes[1..], attempts - 1)
      case None => None
      case Some(k) => Some(k + 1)
  }

  lemma FirstSuccessAt(outcomes: seq<bool>, attempts: int, i: nat)
    requires i < attempts && i < |outcomes| && outcomes[i]
    requires forall j :: 0 <= j < i ==> !outcomes[j]
    ensures FirstSuccess(outcomes, attempts) == Some(i)
  {
  }

  /** The `k` add calls of `k` attempts. */
  function AddCalls(delta: int, k: nat): (calls: seq<Call>)
    ensures |calls| == k && forall i :: 0 <= i < k ==> calls[i] == Call.Add(delta)
  {
    seq(k, _ => Call.Add(delta))
  }

  /** The counter value after initialisation: the seed only replaces a zero. */
  function Seeded(value: int, seed: int): (v: int) {
    if value == 0 then seed else value
  }

  class ZKGenerator {
    var idRange: Range
    var idCounter: int
    const maxIdsToFetch: int
    const zkCounter: Counter
    const maxAttempts: int
    /** Every ID `NextId` has returned, in order. */
    ghost var issued: seq<int>

    ghost predicate Valid()
      reads this, zkCounter
    {
      && maxIdsToFetch > 0 && maxAttempts > 0
      && idRange.ClosedOpen?
      && (idRange == Unleased || 1 <= idRange.lo)
      && idRange.lo <= idCounter
      && 0 <= idRange.hi <= zkCounter.value
      && Increasing(issued)
      && (issued != [] ==> Last(issued) < idCounter && Last(issued) < zkCounter.value)
    }

    /** The private constructor `build` calls; `rootPath` and `counterName` are unused there. */
    constructor (zkCounter: Counter, seed: int, maxIdsToFetch: int, maxAttempts: int)
      requires maxIdsToFetch > 0 && maxAttempts > 0 && seed >= 0
      requires zkCounter.value >= 0
      modifies zkCounter
      ensures Valid()
      ensures this.zkCounter == zkCounter && this.maxIdsToFetch == maxIdsToFetch
      ensures this.maxAttempts == maxAttempts
      ensures idRange == Unleased && idCounter == 0 && issued == []
      ensures zkCounter.value == Seeded(old(zkCounter.value), seed)
      ensures zkCounter.log == old(zkCounter.log) + [Call.Get]
                               + (if old(zkCounter.value) == 0 then [Call.TrySet(seed)] else [])
      ensures zkCounter.outcomes == old(zkCounter.outcomes)
    {
      idCounter := 0;
      idRange := Unleased;
      this.maxIdsToFetch := maxIdsToFetch;
      this.maxAttempts := maxAttempts;
      this.zkCounter := zkCounter;
      issued := [];
      new;
      InitValueInZkIfNeeded(seed);
    }

    /** Writes the seed only when the counter reads 0, never over an existing value. */
    method InitValueInZkIfNeeded(seed: int)
      modifies zkCounter
      ensures zkCounter.value == Seeded(old(zkCounter.value), seed)
      ensures zkCounter.log == old(zkCounter.log) + [Call.Get]
                               + (if old(zkCounter.value) == 0 then [Call.TrySet(seed)] else [])
      ensures zkCounter.outcomes == old(zkCounter.outcomes)
    {
      var current := zkCounter.Get();
      if current == 0 {
        zkCounter.TrySet(seed);
      }
    }

    /**
     * What a refresh that found the counter at `v0`, the script at `script0`
     * and the call log at `log0` leaves behind when one of its adds succeeds.
     */
    ghost predicate LeasedFrom(v0: int, script0: seq<bool>, log0: seq<Call>)
      reads this, zkCounter
    {
      var first := FirstSuccess(script0, maxAttempts);
      && first.Some?
      && zkCounter.value == v0 + maxIdsToFetch
      && zkCounter.outcomes == Drop(script0, first.value + 1)
      && zkCounter.log == log0 + AddCalls(maxIdsToFetch, first.value + 1)
      && idRange == LeaseRange(zkCounter.value, maxIdsToFetch)
      && idCounter == idRange.lo
    }

    /** The cursor is 0 or outside the range, so the next `NextId` must lease. */
    ghost predicate NeedsLease()
      reads this
    {
      idCounter == 0 || !idRange.Contains(idCounter)
    }

    /** `AtomicLong.getAndIncrement` on the cursor. */
    method GetAndIncrement() returns (v: int)
      modifies this`idCounter
      ensures v == old(idCounter) && idCounter == v + 1
    {
      v := idCounter;
      idCounter := idCounter + 1;
    }

    /**
     * Serves the cursor when it lies in the range; otherwise (and always on
     * the first call, when the cursor is 0) refreshes the range first, and
     * keeps refreshing until the value drawn from the cursor lies in it.
     */
    method NextId() returns (r: Result<int>)
      requires Valid()
      modifies this`idRange, this`idCounter, this`issued, zkCounter
      ensures Valid()
      ensures zkCounter.value >= old(zkCounter.value)
      ensures r.Ok? ==> idRange.Contains(r.value) && idCounter == r.value + 1 && r.value >= 1
      ensures r.Ok? ==> issued == old(issued) + [r.value]
      ensures r.Ok? && old(issued) != [] ==> Last(old(issued)) < r.value
      ensures r.Err? ==> r.error == AttemptsExhausted(maxAttempts) && issued == old(issued)
      // fast path: no remote call
      ensures !old(NeedsLease()) ==>
                r == Ok(old(idCounter)) && idRange == old(idRange) && unchanged(zkCounter)
      // slow path
      ensures old(NeedsLease()) ==> |zkCounter.log| > |old(zkCounter.log)|
      ensures old(NeedsLease()) && FirstSuccess(old(zkCounter.outcomes), maxAttempts).None? ==>
                && r == Err(AttemptsExhausted(maxAttempts))
                && idRange == old(idRange) && zkCounter.value == old(zkCounter.value)
                && idCounter == (if old(idCounter) == 0 then 0 else old(idCounter) + 1)
                && zkCounter.outcomes == Drop(old(zkCounter.outcomes), maxAttempts)
      ensures old(NeedsLease()) && FirstSuccess(old(zkCounter.outcomes), maxAttempts).Some?
              && (old(zkCounter.value) >= 1 || maxIdsToFetch >= 2) ==>
                && r == Ok(Max(1, old(zkCounter.value)))
                && zkCounter.value == old(zkCounter.value) + maxIdsToFetch
                && idRange == LeaseRange(zkCounter.value, maxIdsToFetch)
                && zkCounter.outcomes
                   == Drop(old(zkCounter.outcomes), FirstSuccess(old(zkCounter.outcomes), maxAttempts).value + 1)
    {
      if idCounter == 0 {
        var refreshed := RefreshAndSetNewRange();
        if refreshed.Fail? {
          return Err(refreshed.error);
        }
      }
      var nextId := GetAndIncrement();
      r := ServeFrom(nextId);
    }

    /**
     * The loop of `NextId`: while the value drawn from the cursor lies
     * outside the range, refreshes and draws again; then records the value
     * as issued.
     */
    method ServeFrom(nextId0: int) returns (r: Result<int>)
      requires Valid()
      requires nextId0 == idCounter - 1 && idRange.lo <= nextId0
      requires issued != [] ==> Last(issued) < nextId0
      modifies this`idRange, this`idCounter, this`issued, zkCounter
      ensures Valid()
      ensures zkCounter.value >= old(zkCounter.value) && |zkCounter.log| >= |old(zkCounter.log)|
      ensures r.Ok? ==> idRange.Contains(r.value) && idCounter == r.value + 1 && r.value >= 1
      ensures r.Ok? ==> issued == old(issued) + [r.value]
      ensures r.Err? ==> r.error == AttemptsExhausted(maxAttempts) && issued == old(issued)
      ensures old(idRange.Contains(nextId0)) ==>
                r == Ok(nextId0) && idRange == old(idRange) && unchanged(zkCounter)
      ensures !old(idRange.Contains(nextId0)) ==> |zkCounter.log| > |old(zkCounter.log)|
      ensures !old(idRange.Contains(nextId0)) && FirstSuccess(old(zkCounter.outcomes), maxAttempts).None? ==>
                && r == Err(AttemptsExhausted(maxAttempts))
                && idRange == old(idRange) && zkCounter.value == old(zkCounter.value)
                && idCounter == old(idCounter)
                && zkCounter.outcomes == Drop(old(zkCounter.outcomes), maxAttempts)
      ensures !old(idRange.Contains(nextId0)) && FirstSuccess(old(zkCounter.outcomes), maxAttempts).Some?
              && (old(zkCounter.value) >= 1 || maxIdsToFetch >= 2) ==>
                && r == Ok(Max(1, old(zkCounter.value)))
                && zkCounter.value == old(zkCounter.value) + maxIdsToFetch
                && idRange == LeaseRange(zkCounter.value, maxIdsToFetch)
                && zkCounter.outcomes
                   == Drop(old(zkCounter.outcomes), FirstSuccess(old(zkCounter.outcomes), maxAttempts).value + 1)
    {
      ghost var v0, script0, log0 := zkCounter.value, zkCounter.outcomes, zkCounter.log;
      ghost var first := FirstSuccess(script0, maxAttempts);
      // false only for the lease [1, 1) of a block of 1 taken from an empty counter
      ghost var nonEmpty := v0 >= 1 || maxIdsToFetch >= 2;
      ghost var leased := false;
      var nextId := nextId0;
      while !idRange.Contains(nextId)
        invariant Valid() && issued == old(issued)
        invariant nextId == idCounter - 1 && idRange.lo <= nextId
        invariant issued != [] ==> Last(issued) < nextId
        invariant zkCounter.value >= v0 && |zkCounter.log| >= |log0|
        invariant old(idRange.Contains(nextId0)) ==> !leased
        invariant !leased ==> nextId == nextId0 && idRange == old(idRange) && unchanged(zkCounter)
        invariant leased ==>
                    && first.Some? && zkCounter.value >= v0 + maxIdsToFetch && |zkCounter.log| > |log0|
                    && (nonEmpty ==>
                          && nextId == Max(1, v0) && zkCounter.value == v0 + maxIdsToFetch
                          && idRange == LeaseRange(zkCounter.value, maxIdsToFetch)
                          && zkCounter.outcomes == Drop(script0, first.value + 1))
        decreases |zkCounter.outcomes|
      {
        var refreshed := RefreshAndSetNewRange();
        if refreshed.Fail? {
          return Err(refreshed.error);
        }
        leased := true;
        nextId := GetAndIncrement();
      }
      IncreasingAppend(issued, nextId);
      issued := issued + [nextId];
      r := Ok(nextId);
    }

    /**
     * Does nothing while the cursor lies in the range. Otherwise adds
     * `maxIdsToFetch` to the counter, at most `maxAttempts` times, until an
     * add succeeds, then installs the lease and puts the cursor at its lower
     * bound; if none succeeds, fails and leaves the range and cursor alone.
     */
    method RefreshAndSetNewRange() returns (r: Outcome)
      requires Valid()
      modifies this`idRange, this`idCounter, zkCounter
      ensures Valid() && issued == old(issued)
      ensures old(idRange.Contains(idCounter)) ==> r == Pass && unchanged(this, zkCounter)
      ensures !old(idRange.Contains(idCounter)) ==>
                (r == Pass <==> FirstSuccess(old(zkCounter.outcomes), maxAttempts).Some?)
      ensures !old(idRange.Contains(idCounter)) && r.Pass? ==>
                LeasedFrom(old(zkCounter.value), old(zkCounter.outcomes), old(zkCounter.log))
      ensures r.Fail? ==>
                && r.error == AttemptsExhausted(maxAttempts)
                && zkCounter.value == old(zkCounter.value)
                && zkCounter.outcomes == Drop(old(zkCounter.outcomes), maxAttempts)
                && zkCounter.log == old(zkCounter.log) + AddCalls(maxIdsToFetch, maxAttempts)
                && idRange == old(idRange) && idCounter == old(idCounter)
    {
      if idRange.Contains(idCounter) {
        return Pass;
      }
      ghost var script, log0 := zkCounter.outcomes, zkCounter.log;
      for i := 0 to maxAttempts
        invariant forall j :: 0 <= j < i && j < |script| ==> !script[j]
        invariant zkCounter.outcomes == Drop(script, i)
        invariant zkCounter.log == log0 + AddCalls(maxIdsToFetch, i)
        invariant zkCounter.value == old(zkCounter.value)
        invariant idRange == old(idRange) && idCounter == old(idCounter) && issued == old(issued)
      {
        DrawAfter(script, i);
        var succeeded, endRange := zkCounter.Add(maxIdsToFetch);
        assert AddCalls(maxIdsToFetch, i) + [Call.Add(maxIdsToFetch)] == AddCalls(maxIdsToFetch, i + 1);
        if succeeded {
          FirstSuccessAt(script, maxAttempts, i);
          var beginRange := Max(1, endRange - maxIdsToFetch);
          idRange := ClosedOpen(beginRange, endRange);
          idCounter := beginRange;
          return Pass;
        }
      }
      r := Fail(AttemptsExhausted(maxAttempts));
    }
  }

  class Builder {
    var maxIdsToFetch: int
    var maxAttempts: int
    var rootPath: Option<string>
    var counterName: Option<string>
    var zkCounter: Counter?
    var seed: int

    /** What the setters' argument checks keep true of the fields. */
    ghost predicate Valid()
      reads this
    {
      maxIdsToFetch > 0 && maxAttempts > 0 && seed >= 0 && rootPath.Some?
    }

    constructor ()
      ensures Valid()
      ensures maxIdsToFetch == 1000 && maxAttempts == 5 && seed == 0
      ensures rootPath == Some("/monotone/id_gen") && counterName == Some("default")
      ensures zkCounter == null
    {
      maxIdsToFetch := 1000;
      maxAttempts := 5;
      rootPath := Some("/monotone/id_gen");
      counterName := Some("default");
      zkCounter := null;
      seed := 0;
    }

    /** The path `build` creates the counter at. */
    function Path(): (path: string)
      reads this
      requires Valid()
    {
      CounterPath(rootPath, counterName)
    }

    /**
     * As written: the null check tests `rootPath`, which is never null, so
     * every name is accepted, null included.
     */
    method SetCounterName(counterName: Option<string>) returns (r: Outcome)
      requires Valid()
      modifies this`counterName
      ensures Valid() && r == Pass && this.counterName == counterName
    {
      if rootPath.None? {
        return Fail(NullArgument("counterName cannot be null"));
      }
      this.counterName := counterName;
      r := Pass;
    }

    /** As evidently intended: a null counter name is refused. */
    method SetCounterNameChecked(counterName: Option<string>) returns (r: Outcome)
      requires Valid()
      modifies this`counterName
      ensures Valid()
      ensures r.Pass? <==> counterName.Some?
      ensures r.Fail? ==> r.error == NullArgument("counterName cannot be null")
      ensures this.counterName == if r.Pass? then counterName else old(this.counterName)
    {
      if counterName.None? {
        return Fail(NullArgument("counterName cannot be null"));
      }
      this.counterName := counterName;
      r := Pass;
    }

    method SetRootPath(rootPath: Option<string>) returns (r: Outcome)
      requires Valid()
      modifies this`rootPath
      ensures Valid()
      ensures r.Pass? <==> rootPath.Some?
      ensures r.Fail? ==> r.error == NullArgument("rootPath cannot be null")
      ensures this.rootPath == if r.Pass? then rootPath else old(this.rootPath)
    {
      if rootPath.None? {
        return Fail(NullArgument("rootPath cannot be null"));
      }
      this.rootPath := rootPath;
      r := Pass;
    }

    method SetMaxIdsToFetch(maxIdsToFetch: int) returns (r: Outcome)
      requires Valid()
      modifies this`maxIdsToFetch
      ensures Valid()
      ensures r.Pass? <==> maxIdsToFetch > 0
      ensures r.Fail? ==> r.error == IllegalArgument("maxIdsToFetch needs to be > 0")
      ensures this.maxIdsToFetch == if r.Pass? then maxIdsToFetch else old(this.maxIdsToFetch)
    {
      if maxIdsToFetch <= 0 {
        return Fail(IllegalArgument("maxIdsToFetch needs to be > 0"));
      }
      this.maxIdsToFetch := maxIdsToFetch;
      r := Pass;
    }

    method SetMaxAttempts(maxAttempts: int) returns (r: Outcome)
      requires Valid()
      modifies this`maxAttempts
      ensures Valid()
      ensures r.Pass? <==> maxAttempts > 0
      ensures r.Fail? ==> r.error == IllegalArgument("maxAttempts needs to be > 0")
      ensures this.maxAttempts == if r.Pass? then maxAttempts else old(this.maxAttempts)
    {
      if maxAttempts <= 0 {
        return Fail(IllegalArgument("maxAttempts needs to be > 0"));
      }
      this.maxAttempts := maxAttempts;
      r := Pass;
    }

    method SetSeed(seed: int) returns (r: Outcome)
      requires Valid()
      modifies this`seed
      ensures Valid()
      ensures r.Pass? <==> seed >= 0
      ensures r.Fail? ==> r.error == IllegalArgument("seed needs to be >= 0")
      ensures this.seed == if r.Pass? then seed else old(this.seed)
    {
      if seed < 0 {
        return Fail(IllegalArgument("seed needs to be >= 0"));
      }
      this.seed := seed;
      r := Pass;
    }

    /** The hook the tests use to hand in their own counter. */
    method SetDistributedAtomicLong(zkCounter: Counter?)
      modifies this`zkCounter
      ensures this.zkCounter == zkCounter
    {
      this.zkCounter := zkCounter;
    }

    /**
     * Builds a generator over the handed-in counter or, when none was handed
     * in, over `atPath`, the counter that lives at `Path()`.
     */
    method Build(atPath: Counter) returns (g: ZKGenerator)
      requires Valid()
      requires zkCounter == null ==> atPath.value >= 0
      requires zkCounter != null ==> zkCounter.value >= 0
      modifies this`zkCounter, atPath, zkCounter
      ensures fresh(g) && g.Valid()
      ensures zkCounter == (if old(zkCounter) == null then atPath else old(zkCounter))
      ensures g.zkCounter == zkCounter
      ensures g.maxIdsToFetch == maxIdsToFetch && g.maxAttempts == maxAttempts
      ensures g.idRange == Unleased && g.idCounter == 0 && g.issued == []
      ensures old(zkCounter) == null ==> atPath.value == Seeded(old(atPath.value), seed)
      ensures old(zkCounter) != null ==> zkCounter.value == Seeded(old(zkCounter.value), seed)
      ensures old(zkCounter) == null ==> atPath.outcomes == old(atPath.outcomes)
      ensures old(zkCounter) != null ==> zkCounter.outcomes == old(zkCounter.outcomes)
    {
      if zkCounter == null {
        zkCounter := atPath;
      }
      g := new ZKGenerator(zkCounter, seed, maxIdsToFetch, maxAttempts);
    }
  }
}

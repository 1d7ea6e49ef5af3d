/**
 * The shared remote counter, reduced to one integer. ZooKeeper's
 * DistributedAtomicLong and a Redis key are both this object; what differs is
 * which of its operations a generator calls. Whether an `add` or a
 * `compareAndSet` goes through (it may lose to contention or to a dropped
 * connection) is not decided here: it is read off `outcomes`, a script given
 * when the counter is made. A call made when the script is used up fails.
 */
module Remote {

  /** One call a generator makes on the counter, in the order made. */
  datatype Call =
    | Get
    | TrySet(newValue: int)
    | Add(delta: int)
    | CompareAndSet(expected: int, newValue: int)
    | Set(newValue: int)
    | IncrBy(delta: int)

  /** What is left of a script after `k` draws. */
  function Drop(s: seq<bool>, k: nat): (rest: seq<bool>) {
    if k <= |s| then s[k..] else []
  }

  /** The outcome of the next draw from a script. */
  function Granted(s: seq<bool>): (granted: bool) {
    s != [] && s[0]
  }

  /** Drawing once more from what is left after `i` draws is the draw at index `i`. */
  lemma DrawAfter(s: seq<bool>, i: nat)
    ensures Granted(Drop(s, i)) == (i < |s| && s[i])
    ensures Drop(Drop(s, i), 1) == Drop(s, i + 1)
  {
  }

  class Counter {
    var value: int
    var outcomes: seq<bool>
    ghost var log: seq<Call>

    constructor (initial: int, script: seq<bool>)
      ensures value == initial && outcomes == script && log == []
    {
      value, outcomes, log := initial, script, [];
    }

    method Draw() returns (ok: bool)
      modifies this`outcomes
      ensures ok == Granted(old(outcomes)) && outcomes == Drop(old(outcomes), 1)
    {
      ok := outcomes != [] && outcomes[0];
      if outcomes != [] {
        outcomes := outcomes[1..];
      }
    }

    /** `get().postValue()` in ZooKeeper, `get` parsed as a long in Redis. */
    method Get() returns (v: int)
      modifies this`log
      ensures v == value && log == old(log) + [Call.Get]
    {
      v := value;
      log := log + [Call.Get];
    }

    /** `trySet`: always goes through in this sequential model. */
    method TrySet(newValue: int)
      modifies this`value, this`log
      ensures value == newValue && log == old(log) + [Call.TrySet(newValue)]
    {
      value := newValue;
      log := log + [Call.TrySet(newValue)];
    }

    /** Atomic `add`: on success the counter moves by `delta` and `postValue` is its new value. */
    method Add(delta: int) returns (succeeded: bool, postValue: int)
      modifies this
      ensures succeeded == Granted(old(outcomes)) && outcomes == Drop(old(outcomes), 1)
      ensures value == if succeeded then old(value) + delta else old(value)
      ensures succeeded ==> postValue == value
      ensures log == old(log) + [Call.Add(delta)]
    {
      succeeded := Draw();
      if succeeded {
        value := value + delta;
      }
      postValue := value;
      log := log + [Call.Add(delta)];
    }

    /** `compareAndSet`: succeeds only when granted and the counter still holds `expected`. */
    method CompareAndSet(expected: int, newValue: int) returns (succeeded: bool)
      modifies this
      ensures succeeded == (Granted(old(outcomes)) && old(value) == expected)
      ensures outcomes == Drop(old(outcomes), 1)
      ensures value == if succeeded then newValue else old(value)
      ensures log == old(log) + [Call.CompareAndSet(expected, newValue)]
    {
      var granted := Draw();
      succeeded := granted && value == expected;
      if succeeded {
        value := newValue;
      }
      log := log + [Call.CompareAndSet(expected, newValue)];
    }

    /** Redis `SET`: overwrites whatever the key held. */
    method Set(newValue: int)
      modifies this`value, this`log
      ensures value == newValue && log == old(log) + [Call.Set(newValue)]
    {
      value := newValue;
      log := log + [Call.Set(newValue)];
    }

    /** Redis `INCRBY`: atomic and always applied. */
    method IncrBy(delta: int)
      modifies this`value, this`log
      ensures value == old(value) + delta && log == old(log) + [Call.IncrBy(delta)]
    {
      value := value + delta;
      log := log + [Call.IncrBy(delta)];
    }
  }
}

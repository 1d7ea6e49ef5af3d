/**
 * Values shared by the three generators: error results, the interval type the
 * generators keep their lease in, and the run-level view of a sequence of
 * leases as the IDs they let a generator hand out.
 */
module Common {

  datatype Option<+T> = None | Some(value: T)

  /** The exceptions the generators raise, as values. */
  datatype Error =
    | NullArgument(message: string)       // Preconditions.checkNotNull
    | IllegalArgument(message: string)    // Preconditions.checkArgument
    | AttemptsExhausted(maxAttempts: int) // "Could not reserve a range ..."

  datatype Result<+T> = Ok(value: T) | Err(error: Error)

  datatype Outcome = Pass | Fail(error: Error)

  /**
   * The two kinds of interval the generators install: `ClosedOpen(lo, hi)` is
   * lo <= x < hi, `Closed(lo, hi)` is lo <= x <= hi.
   */
  datatype Range = ClosedOpen(lo: int, hi: int) | Closed(lo: int, hi: int) {
    predicate Contains(x: int) {
      lo <= x && if ClosedOpen? then x < hi else x <= hi
    }
  }

  /** The range every generator starts with; it contains nothing. */
  const Unleased := ClosedOpen(0, 0)

  /** A value at or above the lower bound that is not in a range is past its end, and so is the next one. */
  lemma PastRange(r: Range, x: int)
    requires r.lo <= x && !r.Contains(x)
    ensures !r.Contains(x + 1)
  {
  }

  function Max(a: int, b: int): (m: int)
    ensures m >= a && m >= b && (m == a || m == b)
  {
    if a >= b then a else b
  }

  function Last(s: seq<int>): (x: int)
    requires s != []
  {
    s[|s| - 1]
  }

  /**
   * Strictly increasing, hence free of repeats; stated on the last step so
   * that the solver unfolds it only as far as a proof needs.
   */
  predicate Increasing(s: seq<int>) {
    |s| < 2 || (Increasing(s[..|s| - 1]) && s[|s| - 2] < s[|s| - 1])
  }

  /** Increasing is exactly "every earlier element is smaller than every later one". */
  lemma {:induction false} IncreasingIffPairwise(s: seq<int>)
    ensures Increasing(s) <==> forall i, j :: 0 <= i < j < |s| ==> s[i] < s[j]
  {
    if |s| >= 2 {
      var init := s[..|s| - 1];
      IncreasingIffPairwise(init);
      assert forall i :: 0 <= i < |init| ==> init[i] == s[i];
    }
  }

  lemma IncreasingAppend(s: seq<int>, x: int)
    requires Increasing(s)
    requires s != [] ==> Last(s) < x
    ensures Increasing(s + [x])
  {
    assert (s + [x])[..|s|] == s;
  }

  /** A block of consecutive IDs `from, from + 1, ..., to - 1`. */
  datatype Block = Block(from: int, to: int)

  function Ids(b: Block): (ids: seq<int>)
    ensures |ids| == if b.from <= b.to then b.to - b.from else 0
    ensures forall k :: 0 <= k < |ids| ==> ids[k] == b.from + k
  {
    if b.to <= b.from then [] else seq(b.to - b.from, k => b.from + k)
  }

  /** The IDs a generator issues when it uses up each block in turn. */
  function Flatten(bs: seq<Block>): (ids: seq<int>) {
    if bs == [] then [] else Ids(bs[0]) + Flatten(bs[1..])
  }

  /** Every block is well formed and starts at or after the end of the one before. */
  ghost predicate Ascending(bs: seq<Block>) {
    && (forall i :: 0 <= i < |bs| ==> bs[i].from <= bs[i].to)
    && (forall i :: 0 <= i < |bs| - 1 ==> bs[i].to <= bs[i + 1].from)
  }

  lemma {:induction false} FlattenAbove(bs: seq<Block>, lo: int)
    requires Ascending(bs)
    requires bs != [] ==> lo <= bs[0].from
    ensures forall k :: 0 <= k < |Flatten(bs)| ==> lo <= Flatten(bs)[k]
  {
    if bs != [] {
      var tail := bs[1..];
      assert Ascending(tail) by {
        forall i | 0 <= i < |tail| - 1 ensures tail[i].to <= tail[i + 1].from {
          assert tail[i] == bs[i + 1] && tail[i + 1] == bs[i + 2];
        }
      }
      FlattenAbove(tail, lo);
      assert Flatten(bs) == Ids(bs[0]) + Flatten(tail);
    }
  }

  /** Blocks that ascend yield IDs that strictly increase: nothing is issued twice. */
  lemma {:induction false} FlattenIncreasing(bs: seq<Block>)
    requires Ascending(bs)
    ensures Increasing(Flatten(bs))
  {
    if bs != [] {
      var head, tail := Ids(bs[0]), bs[1..];
      assert Ascending(tail) by {
        forall i | 0 <= i < |tail| - 1 ensures tail[i].to <= tail[i + 1].from {
          assert tail[i] == bs[i + 1] && tail[i + 1] == bs[i + 2];
        }
      }
      FlattenIncreasing(tail);
      FlattenAbove(tail, bs[0].to);
      var all := Flatten(bs);
      assert all == head + Flatten(tail);
      IncreasingIffPairwise(Flatten(tail));
      forall i, j | 0 <= i < j < |all| ensures all[i] < all[j] {
        if j < |head| {
          assert all[i] == head[i] && all[j] == head[j];
        } else if i < |head| {
          assert all[i] == head[i] < bs[0].to;
          assert all[j] == Flatten(tail)[j - |head|];
        } else {
          assert all[i] == Flatten(tail)[i - |head|] && all[j] == Flatten(tail)[j - |head|];
        }
      }
      IncreasingIffPairwise(all);
    }
  }

  /**
   * The closed-range convention of the CAS-based and the Redis generators: a
   * lease read as counter value `c` installs `[c, c + n]` with the cursor at
   * `c + 1`, so the IDs it lets the generator issue are `c + 1 .. c + n`.
   */
  function ClosedLeaseBlock(c: int, n: int): (b: Block) {
    Block(c + 1, c + n + 1)
  }

  /** Each closed lease issues exactly `n` IDs, all inside its range, never its lower end `c`. */
  lemma ClosedLeaseIssues(c: int, n: int)
    requires n >= 1
    ensures |Ids(ClosedLeaseBlock(c, n))| == n
    ensures forall x :: x in Ids(ClosedLeaseBlock(c, n)) ==> Closed(c, c + n).Contains(x) && x != c
    ensures forall x :: Closed(c, c + n).Contains(x) && x != c ==> x in Ids(ClosedLeaseBlock(c, n))
  {
    var ids := Ids(ClosedLeaseBlock(c, n));
    forall x | Closed(c, c + n).Contains(x) && x != c ensures x in ids {
      assert ids[x - c - 1] == x;
    }
  }

  /** The leases one generator takes while the counter reads `values[0], values[1], ...`. */
  function ClosedLeaseBlocks(values: seq<int>, n: int): (bs: seq<Block>)
    ensures |bs| == |values|
    ensures forall i :: 0 <= i < |values| ==> bs[i] == ClosedLeaseBlock(values[i], n)
  {
    seq(|values|, i requires 0 <= i < |values| => ClosedLeaseBlock(values[i], n))
  }

  /** Between two leases the counter has moved on by at least one block. */
  ghost predicate AdvancesBy(values: seq<int>, n: int) {
    forall i :: 0 <= i < |values| - 1 ==> values[i] + n <= values[i + 1]
  }

  /**
   * Leases read from a counter that only advances by whole blocks issue
   * disjoint, increasing ID sets, although consecutive closed ranges
   * `[c, c + n]` and `[c + n, c + 2n]` share their endpoint.
   */
  lemma ClosedLeasesNeverRepeat(values: seq<int>, n: int)
    requires n >= 1
    requires AdvancesBy(values, n)
    ensures Increasing(Flatten(ClosedLeaseBlocks(values, n)))
  {
    FlattenIncreasing(ClosedLeaseBlocks(values, n));
  }

  /** Java's string concatenation writes a null reference as "null". */
  function JavaString(s: Option<string>): (text: string) {
    if s.None? then "null" else s.value
  }

  /** The ZooKeeper path of a counter, `rootPath + "/" + counterName`, with Java's rendering of null. */
  function CounterPath(rootPath: Option<string>, counterName: Option<string>): (path: string)
    ensures rootPath.Some? && counterName.Some? ==> path == rootPath.value + "/" + counterName.value
    ensures rootPath.Some? && counterName.None? ==> path == rootPath.value + "/null"
    ensures rootPath.None? && counterName.Some? ==> path == "null/" + counterName.value
  {
    JavaString(rootPath) + "/" + JavaString(counterName)
  }
}

/**
 * The plotter's two static helpers (`__pairwise`, `__timestamp_to_datetime`)
 * and the `[min(x), max(x)]` axis range taken over the node coordinates.
 */
module PlotHelpers {
  import opened Wrappers
  import opened Blocks

  /** One step of a newest-first walk: a block and the block just before it, if any. */
  type BlockPair = (Block, Option<Block>)

  /** Seconds in one day: the smallest timestamp the plotter converts. */
  const MinTimestamp: int := 86400

  /**
   * Python's `zip(a, b)`: pairs up equal positions and stops at the shorter
   * input. The second component is always present (`Some`), since it is a
   * real block.
   */
  function Zip(a: seq<Block>, b: seq<Block>): (r: seq<BlockPair>)
    ensures |r| == if |a| <= |b| then |a| else |b|
    ensures forall i :: 0 <= i < |r| ==> r[i] == (a[i], Some(b[i]))
    decreases |a|
  {
    if |a| == 0 || |b| == 0 then []
    else [(a[0], Some(b[0]))] + Zip(a[1..], b[1..])
  }

  /**
   * `__pairwise`: a single block yields the one pair (block, None); otherwise
   * `zip(s[:-1], s[1:])`, which is empty for an empty walk.
   */
  function Pairwise(s: seq<Block>): (r: seq<BlockPair>)
    ensures |s| == 1 ==> r == [(s[0], None)]
    ensures |s| != 1 ==> |r| == (if |s| == 0 then 0 else |s| - 1)
    ensures |s| != 1 ==> forall i :: 0 <= i < |r| ==> r[i] == (s[i], Some(s[i + 1]))
  {
    if |s| == 1 then [(s[0], None)]
    else if |s| == 0 then Zip([], [])
    else Zip(s[..|s| - 1], s[1..])
  }

  /** Every block of a non-empty walk except the last one is the current block of exactly one pair. */
  lemma PairwiseCovers(s: seq<Block>)
    requires |s| > 0
    ensures |Pairwise(s)| == if |s| == 1 then 1 else |s| - 1
    ensures |s| >= 2 ==> forall i :: 0 <= i < |s| - 1 ==> Pairwise(s)[i].0 == s[i]
    ensures |s| >= 2 ==> Pairwise(s)[|s| - 2].1 == Some(s[|s| - 1])
    ensures Pairwise(s)[0].0 == s[0]
  {
  }

  /**
   * `__timestamp_to_datetime` without the calendar conversion: any timestamp
   * below one day becomes exactly one day; the result is the x coordinate.
   */
  function TimestampToX(timestamp: int): (x: int)
    ensures x >= MinTimestamp
    ensures x >= timestamp
    ensures timestamp >= MinTimestamp ==> x == timestamp
    ensures timestamp < MinTimestamp ==> x == MinTimestamp
  {
    if timestamp < MinTimestamp then MinTimestamp else timestamp
  }

  /** The clamp keeps the order of timestamps on the time axis. */
  lemma TimestampToXMonotonic(t1: int, t2: int)
    requires t1 <= t2
    ensures TimestampToX(t1) <= TimestampToX(t2)
  {
  }

  /** Python's `min` over a non-empty list. */
  function SeqMin(xs: seq<int>): (m: int)
    requires |xs| > 0
    ensures m in xs
    ensures forall i :: 0 <= i < |xs| ==> m <= xs[i]
    decreases |xs|
  {
    if |xs| == 1 then xs[0]
    else
      var rest := SeqMin(xs[1..]);
      if xs[0] <= rest then xs[0] else rest
  }

  /** Python's `max` over a non-empty list. */
  function SeqMax(xs: seq<int>): (m: int)
    requires |xs| > 0
    ensures m in xs
    ensures forall i :: 0 <= i < |xs| ==> xs[i] <= m
    decreases |xs|
  {
    if |xs| == 1 then xs[0]
    else
      var rest := SeqMax(xs[1..]);
      if xs[0] >= rest then xs[0] else rest
  }

  /**
   * `greatest_range = [min(x), max(x)]`. `None` stands for the `ValueError`
   * that `min` raises on an empty node list.
   */
  function GreatestRange(xs: seq<int>): (r: Option<(int, int)>)
    ensures r.Some? <==> |xs| > 0
    ensures r.Some? ==> r.value.0 <= r.value.1
    ensures r.Some? ==> r.value.0 in xs && r.value.1 in xs
    ensures r.Some? ==> forall i :: 0 <= i < |xs| ==> r.value.0 <= xs[i] <= r.value.1
  {
    if |xs| == 0 then None else Some((SeqMin(xs), SeqMax(xs)))
  }
}

/** The cents smoothing window (centsBuffer in script.js): a FIFO of at most eight values and their mean. */
module Smoothing {

  /** bufferSize of script.js:59 */
  const BufferSize: nat := 8

  /** The fold reduce((a, b) => a + b, 0) of script.js:87. */
  function Sum(s: seq<real>): real
  {
    if s == [] then 0.0 else Sum(s[..|s| - 1]) + s[|s| - 1]
  }

  /** The smoothed value: the arithmetic mean of the window. */
  function Mean(s: seq<real>): (r: real)
    requires |s| > 0
    ensures r * |s| as real == Sum(s)
  {
    Sum(s) / |s| as real
  }

  /**
   * One voiced tick on the window (script.js:85-86): push the new value, then shift out the oldest if the
   * window has grown past its capacity.
   */
  function PushBounded(window: seq<real>, x: real, capacity: nat): (r: seq<real>)
    ensures |window| <= capacity ==> |r| <= capacity
    ensures capacity > 0 && |window| <= capacity ==> |r| > 0 && r[|r| - 1] == x
    ensures capacity > 0 && |window| <= capacity ==> |r| == if |window| < capacity then |window| + 1 else capacity
  {
    var pushed := window + [x];
    if |pushed| > capacity then pushed[1..] else pushed
  }

  /** The last n values of h, oldest first. */
  function Recent(h: seq<real>, n: nat): seq<real>
  {
    if |h| <= n then h else h[|h| - n..]
  }

  /** A voiced tick keeps the window equal to the most recent values of the history. */
  lemma PushKeepsRecent(h: seq<real>, x: real, n: nat)
    requires n >= 1
    ensures PushBounded(Recent(h, n), x, n) == Recent(h + [x], n)
  {
  }

  /** Several voiced ticks in a row, oldest value first. */
  function PushAll(window: seq<real>, xs: seq<real>, capacity: nat): seq<real>
    decreases |xs|
  {
    if xs == [] then window else PushAll(PushBounded(window, xs[0], capacity), xs[1..], capacity)
  }

  /**
   * However many values have gone in since the last silence, the window holds the last n of them in arrival
   * order: the oldest is the first to go.
   */
  lemma {:induction false} PushAllKeepsRecent(h: seq<real>, xs: seq<real>, n: nat)
    requires n >= 1
    ensures PushAll(Recent(h, n), xs, n) == Recent(h + xs, n)
    decreases |xs|
  {
    if xs != [] {
      PushKeepsRecent(h, xs[0], n);
      PushAllKeepsRecent(h + [xs[0]], xs[1..], n);
      assert h + [xs[0]] + xs[1..] == h + xs;
    }
  }

  /** Nine values pushed into an empty window of eight leave the last eight. */
  lemma NineValuesKeepLastEight(xs: seq<real>)
    requires |xs| == 9
    ensures PushAll([], xs, BufferSize) == xs[1..]
  {
    PushAllKeepsRecent([], xs, BufferSize);
    assert [] + xs == xs;
  }

  function SeqMin(s: seq<real>): (m: real)
    requires |s| > 0
    ensures m in s && forall i :: 0 <= i < |s| ==> m <= s[i]
  {
    if |s| == 1 then s[0]
    else
      var m := SeqMin(s[..|s| - 1]);
      assert forall i :: 0 <= i < |s| - 1 ==> s[..|s| - 1][i] == s[i];
      if s[|s| - 1] < m then s[|s| - 1] else m
  }

  function SeqMax(s: seq<real>): (m: real)
    requires |s| > 0
    ensures m in s && forall i :: 0 <= i < |s| ==> s[i] <= m
  {
    if |s| == 1 then s[0]
    else
      var m := SeqMax(s[..|s| - 1]);
      assert forall i :: 0 <= i < |s| - 1 ==> s[..|s| - 1][i] == s[i];
      if s[|s| - 1] > m then s[|s| - 1] else m
  }

  lemma {:induction false} SumBounds(s: seq<real>, lo: real, hi: real)
    requires forall i :: 0 <= i < |s| ==> lo <= s[i] <= hi
    ensures |s| as real * lo <= Sum(s) <= |s| as real * hi
  {
    if s != [] {
      var init := s[..|s| - 1];
      assert forall i :: 0 <= i < |init| ==> init[i] == s[i];
      SumBounds(init, lo, hi);
      assert |s| as real * lo == |init| as real * lo + lo;
      assert |s| as real * hi == |init| as real * hi + hi;
    }
  }

  lemma DivisionBounds(sum: real, n: real, lo: real, hi: real)
    requires n > 0.0 && n * lo <= sum <= n * hi
    ensures lo <= sum / n <= hi
  {
  }

  /** The mean of values within [lo, hi] is within [lo, hi]. */
  lemma MeanBetween(s: seq<real>, lo: real, hi: real)
    requires |s| > 0
    requires forall i :: 0 <= i < |s| ==> lo <= s[i] <= hi
    ensures lo <= Mean(s) <= hi
  {
    SumBounds(s, lo, hi);
    DivisionBounds(Sum(s), |s| as real, lo, hi);
  }

  /** The smoothed value lies between the smallest and the largest value in the window. */
  lemma MeanWithinWindow(s: seq<real>)
    requires |s| > 0
    ensures SeqMin(s) <= Mean(s) <= SeqMax(s)
  {
    MeanBetween(s, SeqMin(s), SeqMax(s));
  }

  /** A window of one value smooths to that value. */
  lemma MeanOfOne(x: real)
    ensures Mean([x]) == x
  {
    assert [x][..0] == [];
    assert Sum([x]) == x;
  }
}

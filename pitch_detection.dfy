/**
 * The autocorrelation pitch estimator of the tuner (autoCorrelate in script.js).
 *
 * A frame of samples goes through five stages: a silence gate on the mean square, trimming of the loud edges,
 * the autocorrelation of what is left, a skip over the initial descent from lag 0, and a search for the first
 * maximum after it. The lag of that maximum, refined by a parabola through its neighbours, gives the frequency.
 * Numbers are exact reals; the floating-point accuracy of the estimate is not modelled.
 */
module PitchDetection {
  import opened Numbers

  /** The source compares sqrt(mean square) with 0.01 (script.js:118-120). */
  const RmsThreshold: real := 0.01
  /** The same bound on the mean square itself: 0.01 squared. */
  const SilenceMeanSquare: real := 0.0001
  /** A sample of smaller magnitude marks the start or the end of the significant part (script.js:123). */
  const TrimThreshold: real := 0.2

  /** What the estimator reports: no signal (the source's -1) or a frequency in Hz. */
  datatype Pitch = NoSignal | Frequency(hz: real)

  // ---------------------------------------------------------------- signal gate

  /** Sum of the squares of the samples, accumulated front to back. */
  function SumSquares(s: seq<real>): (r: real)
    ensures r >= 0.0
  {
    if s == [] then 0.0 else SumSquares(s[..|s| - 1]) + s[|s| - 1] * s[|s| - 1]
  }

  /**
   * The frame is too quiet: its mean square lies below the squared RMS threshold. An empty frame is not
   * silent: in the source its mean square is 0/0, a NaN, and a comparison with NaN is false.
   */
  predicate IsSilent(buf: seq<real>)
  {
    |buf| > 0 && SumSquares(buf) / |buf| as real < SilenceMeanSquare
  }

  /** The gate on the mean square is the source's gate on the root mean square, whatever root is taken. */
  lemma GateMatchesRms(buf: seq<real>, rms: real)
    requires |buf| > 0
    requires rms >= 0.0 && rms * rms == SumSquares(buf) / |buf| as real
    ensures IsSilent(buf) <==> rms < RmsThreshold
  {
    if rms < RmsThreshold {
      assert rms * rms <= rms * RmsThreshold;
      assert rms * RmsThreshold < RmsThreshold * RmsThreshold;
    } else {
      assert rms * rms >= rms * RmsThreshold;
      assert rms * RmsThreshold >= RmsThreshold * RmsThreshold;
    }
  }

  lemma {:induction false} AllZeroSumSquares(s: seq<real>)
    requires forall i :: 0 <= i < |s| ==> s[i] == 0.0
    ensures SumSquares(s) == 0.0
  {
    if s != [] {
      AllZeroSumSquares(s[..|s| - 1]);
    }
  }

  /** A non-empty frame of zeros is always silent. */
  lemma ZeroFrameIsSilent(buf: seq<real>)
    requires |buf| > 0
    requires forall i :: 0 <= i < |buf| ==> buf[i] == 0.0
    ensures IsSilent(buf)
  {
    AllZeroSumSquares(buf);
  }

  /** The RMS loop of script.js:112-120, with the square root taken out of the comparison. */
  method SignalGate(buf: seq<real>) returns (silent: bool)
    ensures silent == IsSilent(buf)
  {
    var size := |buf|;
    var rms := 0.0;
    for i := 0 to size
      invariant rms == SumSquares(buf[..i])
    {
      var val := buf[i];
      rms := rms + val * val;
      assert buf[..i + 1][..i] == buf[..i];
    }
    assert buf[..size] == buf;
    silent := size > 0 && rms / size as real < SilenceMeanSquare;
  }

  // ---------------------------------------------------------------- edge trimming

  predicate Quiet(x: real)
  {
    Abs(x) < TrimThreshold
  }

  /**
   * Scanning the front half (2 * k < |buf|) from index i: the first quiet sample, or 0 when there is none.
   */
  function FirstQuietFrom(buf: seq<real>, i: nat): (r1: nat)
    decreases |buf| - i
    ensures (i <= r1 && 2 * r1 < |buf| && Quiet(buf[r1]) && forall k :: i <= k < r1 ==> !Quiet(buf[k]))
         || (r1 == 0 && forall k :: i <= k && 2 * k < |buf| ==> !Quiet(buf[k]))
  {
    if 2 * i >= |buf| then 0
    else if Quiet(buf[i]) then i
    else FirstQuietFrom(buf, i + 1)
  }

  /**
   * Scanning the back half from index |buf| - i down (the source's loop over i with 2 * i < |buf|): the
   * first quiet sample met, or |buf| - 1 when there is none.
   */
  function LastQuietFrom(buf: seq<real>, i: nat): (r2: int)
    requires i >= 1
    decreases |buf| - i
    ensures (2 * r2 > |buf| && r2 <= |buf| - i && Quiet(buf[r2])
             && forall k :: r2 < k <= |buf| - i ==> !Quiet(buf[k]))
         || (r2 == |buf| - 1 && forall k :: 2 * k > |buf| && k <= |buf| - i ==> !Quiet(buf[k]))
  {
    if 2 * i >= |buf| then |buf| - 1
    else if Quiet(buf[|buf| - i]) then |buf| - i
    else LastQuietFrom(buf, i + 1)
  }

  /** r1 of script.js:123-125 */
  function TrimStart(buf: seq<real>): nat
  {
    FirstQuietFrom(buf, 0)
  }

  /** r2 of script.js:123, 126-127 */
  function TrimEnd(buf: seq<real>): int
  {
    LastQuietFrom(buf, 1)
  }

  /**
   * For a frame of two samples or more the two indices straddle the middle of the frame:
   * 0 <= r1 < |buf| / 2 <= r2 <= |buf| - 1, so the slice [r1, r2) they keep is never empty.
   */
  lemma TrimBounds(buf: seq<real>)
    requires |buf| >= 2
    ensures 0 <= TrimStart(buf) && 2 * TrimStart(buf) < |buf|
    ensures |buf| <= 2 * TrimEnd(buf) && TrimEnd(buf) <= |buf| - 1
    ensures TrimStart(buf) < TrimEnd(buf)
  {
  }

  /**
   * r1 is the first quiet index of the front half, or 0 when the front half has none; r2 is the last quiet
   * index past the middle, or |buf| - 1 when there is none.
   */
  lemma TrimIndicesAreTheEdges(buf: seq<real>)
    ensures var r1 := TrimStart(buf);
            (2 * r1 < |buf| && Quiet(buf[r1]) && forall k :: 0 <= k < r1 ==> !Quiet(buf[k]))
            || (r1 == 0 && forall k :: 0 <= k && 2 * k < |buf| ==> !Quiet(buf[k]))
    ensures var r2 := TrimEnd(buf);
            (2 * r2 > |buf| && r2 < |buf| && Quiet(buf[r2]) && forall k :: r2 < k < |buf| ==> !Quiet(buf[k]))
            || (r2 == |buf| - 1 && forall k :: 2 * k > |buf| && k < |buf| ==> !Quiet(buf[k]))
  {
  }

  /** The significant part of a frame: buf.slice(r1, r2) of script.js:129. */
  function Trimmed(buf: seq<real>): (s: seq<real>)
    requires |buf| >= 2
    ensures |s| >= 1
  {
    TrimBounds(buf);
    buf[TrimStart(buf)..TrimEnd(buf)]
  }

  /**
   * A frame of even length, four samples or more, always keeps at least two samples: r1 lies below the middle
   * and r2 at least one past it. The frames of 2048 samples the tuner takes are of this kind.
   */
  lemma EvenFrameKeepsTwoSamples(buf: seq<real>)
    requires |buf| >= 4 && |buf| % 2 == 0
    ensures |Trimmed(buf)| >= 2
  {
    TrimBounds(buf);
    TrimIndicesAreTheEdges(buf);
  }

  /** The two trimming loops of script.js:123-127. */
  method Trim(buf: seq<real>) returns (r1: nat, r2: int)
    ensures r1 == TrimStart(buf) && r2 == TrimEnd(buf)
  {
    var size := |buf|;
    r1, r2 := 0, size - 1;
    var i := 0;
    while 2 * i < size
      invariant r1 == 0
      invariant FirstQuietFrom(buf, i) == TrimStart(buf)
      decreases size - i
    {
      if Abs(buf[i]) < TrimThreshold {
        r1 := i;
        break;
      }
      i := i + 1;
    }
    i := 1;
    while 2 * i < size
      invariant i >= 1
      invariant r2 == size - 1
      invariant LastQuietFrom(buf, i) == TrimEnd(buf)
      decreases size - i
    {
      if Abs(buf[size - i]) < TrimThreshold {
        r2 := size - i;
        break;
      }
      i := i + 1;
    }
  }

  // ---------------------------------------------------------------- autocorrelation

  /** The sum of s[j] * s[j + lag] over j < n. */
  function LagSum(s: seq<real>, lag: nat, n: nat): real
    requires n + lag <= |s|
  {
    if n == 0 then 0.0 else LagSum(s, lag, n - 1) + s[n - 1] * s[n - 1 + lag]
  }

  /** c[lag]: the sum of s[j] * s[j + lag] over every j with j + lag < |s|. */
  function Correlation(s: seq<real>, lag: nat): real
    requires lag <= |s|
  {
    LagSum(s, lag, |s| - lag)
  }

  /** The autocorrelation array, one entry per lag 0 .. |s| - 1. */
  function Correlations(s: seq<real>): seq<real>
  {
    seq(|s|, i requires 0 <= i < |s| => Correlation(s, i))
  }

  lemma {:induction false} LagSumAtZero(s: seq<real>, n: nat)
    requires n <= |s|
    ensures LagSum(s, 0, n) == SumSquares(s[..n])
  {
    if n > 0 {
      LagSumAtZero(s, n - 1);
      assert s[..n][..n - 1] == s[..n - 1];
    }
  }

  /** At lag 0 the autocorrelation is the energy of the slice, so it is never negative. */
  lemma ZeroLagIsEnergy(s: seq<real>)
    ensures Correlation(s, 0) == SumSquares(s)
    ensures Correlation(s, 0) >= 0.0
  {
    LagSumAtZero(s, |s|);
    assert s[..|s|] == s;
  }

  /** The nested loop of script.js:133-136, filling c in place. */
  method AutoCorrelation(s: seq<real>) returns (c: array<real>)
    ensures c[..] == Correlations(s)
  {
    var size := |s|;
    c := new real[size](_ => 0.0);
    for i := 0 to size
      invariant forall k :: 0 <= k < i ==> c[k] == Correlation(s, k)
      invariant forall k :: i <= k < size ==> c[k] == 0.0
    {
      for j := 0 to size - i
        invariant forall k :: 0 <= k < i ==> c[k] == Correlation(s, k)
        invariant c[i] == LagSum(s, i, j)
        invariant forall k :: i < k < size ==> c[k] == 0.0
      {
        c[i] := c[i] + s[j] * s[j + i];
      }
    }
    assert forall k :: 0 <= k < size ==> c[..][k] == Correlations(s)[k];
  }

  // ---------------------------------------------------------------- descent skip

  /**
   * From index d, step forward while c keeps strictly decreasing. The source's loop reads past the end of
   * c, where the comparison is false; the guard d + 1 < |c| stands for that.
   */
  function DescentEndFrom(c: seq<real>, d: nat): (e: nat)
    decreases |c| - d
    ensures d <= e && (e == d || e < |c|)
    ensures d < |c| ==> e < |c|
    ensures forall k :: d <= k < e ==> c[k] > c[k + 1]
    ensures e + 1 >= |c| || c[e] <= c[e + 1]
  {
    if d + 1 < |c| && c[d] > c[d + 1] then DescentEndFrom(c, d + 1) else d
  }

  /** d of script.js:138: the end of the descent from lag 0. */
  function DescentEnd(c: seq<real>): nat
  {
    DescentEndFrom(c, 0)
  }

  /** The loop of script.js:138. */
  method SkipDescent(c: array<real>) returns (d: nat)
    ensures d == DescentEnd(c[..])
  {
    d := 0;
    while d + 1 < c.Length && c[d] > c[d + 1]
      invariant DescentEndFrom(c[..], d) == DescentEnd(c[..])
      decreases c.Length - d
    {
      d := d + 1;
    }
  }

  // ---------------------------------------------------------------- peak search

  /** The first index of a maximum of c[lo..hi]. */
  function FirstMaxIn(c: seq<real>, lo: nat, hi: nat): (m: nat)
    requires lo < hi <= |c|
    decreases hi
    ensures lo <= m < hi
    ensures forall k :: lo <= k < hi ==> c[k] <= c[m]
    ensures forall k :: lo <= k < m ==> c[k] < c[m]
  {
    if hi == lo + 1 then lo
    else
      var m := FirstMaxIn(c, lo, hi - 1);
      if c[hi - 1] > c[m] then hi - 1 else m
  }

  /**
   * maxpos of script.js:139-145. The running maximum starts at -1, so no lag is chosen when every correlation
   * from d on is at most -1; otherwise maxpos is the first maximum of c[d..].
   */
  function Peak(c: seq<real>, d: nat): (maxpos: int)
    ensures maxpos == -1 <==> forall k :: d <= k < |c| ==> c[k] <= -1.0
    ensures maxpos != -1 ==> d <= maxpos < |c| && c[maxpos] > -1.0
    ensures maxpos != -1 ==> forall k :: d <= k < |c| ==> c[k] <= c[maxpos]
    ensures maxpos != -1 ==> forall k :: d <= k < maxpos ==> c[k] < c[maxpos]
  {
    if d < |c| && c[FirstMaxIn(c, d, |c|)] > -1.0 then FirstMaxIn(c, d, |c|) else -1
  }

  /** The loop of script.js:139-145. */
  method FindPeak(c: array<real>, d: nat) returns (maxpos: int)
    ensures maxpos == Peak(c[..], d)
  {
    var size := c.Length;
    var maxval := -1.0;
    maxpos := -1;
    var i := d;
    while i < size
      invariant d <= i && (i <= size || i == d)
      invariant i == d ==> maxpos == -1
      invariant i > d ==> maxpos == (if c[FirstMaxIn(c[..], d, i)] > -1.0 then FirstMaxIn(c[..], d, i) else -1)
      invariant maxval == (if maxpos == -1 then -1.0 else c[maxpos])
    {
      if c[i] > maxval {
        maxval := c[i];
        maxpos := i;
      }
      i := i + 1;
    }
  }

  // ---------------------------------------------------------------- parabolic refinement

  /**
   * The lag T0 of script.js:146-152: the vertex of the parabola through c[t-1], c[t], c[t+1]. At either end
   * of c the source reads past the array, gets NaN for a, and keeps T0 == t; the guard 0 < t < |c| - 1
   * stands for that, and so does the test a != 0 for the source's truthiness test on a.
   */
  function RefinedLag(c: seq<real>, t: int): real
    requires -1 <= t < |c|
  {
    if 0 < t < |c| - 1 then
      var x1, x2, x3 := c[t - 1], c[t], c[t + 1];
      var a := (x1 + x3 - 2.0 * x2) / 2.0;
      var b := (x3 - x1) / 2.0;
      if a != 0.0 then t as real - b / (2.0 * a) else t as real
    else t as real
  }

  /** The interpolation statements of script.js:146-152. */
  method Interpolate(c: array<real>, maxpos: int) returns (t0: real)
    requires -1 <= maxpos < c.Length
    ensures t0 == RefinedLag(c[..], maxpos)
    ensures maxpos == Peak(c[..], DescentEnd(c[..])) && maxpos > 0 ==>
              maxpos as real - 0.5 <= t0 <= maxpos as real + 0.5
  {
    t0 := maxpos as real;
    if 0 < maxpos < c.Length - 1 {
      var x1, x2, x3 := c[maxpos - 1], c[maxpos], c[maxpos + 1];
      var a := (x1 + x3 - 2.0 * x2) / 2.0;
      var b := (x3 - x1) / 2.0;
      if a != 0.0 {
        t0 := t0 - b / (2.0 * a);
      }
    }
    if maxpos == Peak(c[..], DescentEnd(c[..])) && maxpos > 0 {
      RefinedLagNearPeak(c[..]);
    }
  }

  /** A vertex between two neighbours no higher than the middle point lies within half a lag of it. */
  lemma VertexOffsetBound(x1: real, x2: real, x3: real)
    requires x1 <= x2 && x3 <= x2
    requires (x1 + x3 - 2.0 * x2) / 2.0 != 0.0
    ensures var a := (x1 + x3 - 2.0 * x2) / 2.0;
            var b := (x3 - x1) / 2.0;
            -0.5 <= b / (2.0 * a) <= 0.5
  {
    var a := (x1 + x3 - 2.0 * x2) / 2.0;
    var b := (x3 - x1) / 2.0;
    var q := b / (2.0 * a);
    assert a < 0.0;
    assert q * (2.0 * a) == b;
    assert a <= b <= -a;
  }

  /**
   * Past lag 0, the refined lag lies within half a lag of the peak: the peak is a maximum of its right
   * neighbour, and of its left neighbour unless that one is still on the descent, in which case the right
   * neighbour ties with the peak and the vertex sits exactly half a lag to the right.
   */
  lemma RefinedLagNearPeak(c: seq<real>)
    requires Peak(c, DescentEnd(c)) > 0
    ensures var t := Peak(c, DescentEnd(c));
            t as real - 0.5 <= RefinedLag(c, t) <= t as real + 0.5
  {
    var d := DescentEnd(c);
    var t := Peak(c, d);
    if 0 < t < |c| - 1 {
      var x1, x2, x3 := c[t - 1], c[t], c[t + 1];
      assert x3 <= x2;
      if t - 1 >= d {
        assert x1 <= x2;
        if (x1 + x3 - 2.0 * x2) / 2.0 != 0.0 {
          VertexOffsetBound(x1, x2, x3);
        }
      } else {
        assert t == d;
        assert x1 > x2;
        assert x3 == x2;
        var a := (x1 + x3 - 2.0 * x2) / 2.0;
        var b := (x3 - x1) / 2.0;
        assert b == -a && a > 0.0;
        assert b / (2.0 * a) == -0.5;
      }
    }
  }

  // ---------------------------------------------------------------- the estimate

  /**
   * The lag the source divides the sample rate by (script.js:146-154), computed with no guard: -1 when the
   * peak search found nothing (the NaN interpolation leaves T0 at -1), and 0 when the peak is at lag 0.
   */
  function LagAsWritten(buf: seq<real>): real
    requires |buf| >= 2
  {
    var c := Correlations(Trimmed(buf));
    RefinedLag(c, Peak(c, DescentEnd(c)))
  }

  /**
   * What autoCorrelate reports, with the division by a non-positive lag turned into NoSignal: the source
   * would report sampleRate / 0 or -sampleRate there.
   */
  function Estimate(buf: seq<real>, sampleRate: real): Pitch
    requires |buf| >= 2
  {
    if IsSilent(buf) then NoSignal
    else
      var t0 := LagAsWritten(buf);
      if t0 <= 0.0 then NoSignal else Frequency(sampleRate / t0)
  }

  /**
   * A voiced frame yields a frequency exactly when its peak lag is 1 or more, and the frequency is the sample
   * rate over a lag within half a lag of that peak; so at a positive sample rate every frequency reported is
   * positive.
   */
  lemma EstimateFromPeakLag(buf: seq<real>, sampleRate: real)
    requires |buf| >= 2
    ensures var c := Correlations(Trimmed(buf));
            var t := Peak(c, DescentEnd(c));
            Estimate(buf, sampleRate).Frequency? <==> !IsSilent(buf) && t >= 1
    ensures var c := Correlations(Trimmed(buf));
            var t := Peak(c, DescentEnd(c));
            Estimate(buf, sampleRate).Frequency? ==>
              var t0 := LagAsWritten(buf);
              t as real - 0.5 <= t0 <= t as real + 0.5 && Estimate(buf, sampleRate).hz == sampleRate / t0
    ensures sampleRate > 0.0 && Estimate(buf, sampleRate).Frequency? ==> Estimate(buf, sampleRate).hz > 0.0
  {
    var c := Correlations(Trimmed(buf));
    var t := Peak(c, DescentEnd(c));
    var t0 := LagAsWritten(buf);
    assert t0 == RefinedLag(c, t);
    if t > 0 {
      RefinedLagNearPeak(c);
      assert t0 > 0.0;
    } else {
      assert t0 == t as real;
    }
  }

  lemma {:induction false} AllZeroLagSum(s: seq<real>, lag: nat, n: nat)
    requires n + lag <= |s|
    requires forall i :: 0 <= i < |s| ==> s[i] == 0.0
    ensures LagSum(s, lag, n) == 0.0
  {
    if n > 0 {
      AllZeroLagSum(s, lag, n - 1);
    }
  }

  /**
   * As written, a voiced frame whose significant part is all zeros makes the source divide the sample rate by
   * a lag of 0: its autocorrelation is flat, the descent skip stops at 0 and the first maximum is lag 0.
   */
  lemma ZeroSliceHasZeroLag(buf: seq<real>)
    requires |buf| >= 2
    requires forall i :: 0 <= i < |Trimmed(buf)| ==> Trimmed(buf)[i] == 0.0
    ensures var c := Correlations(Trimmed(buf));
            DescentEnd(c) == 0 && Peak(c, 0) == 0
    ensures LagAsWritten(buf) == 0.0
  {
    var s := Trimmed(buf);
    var c := Correlations(s);
    forall k | 0 <= k < |c|
      ensures c[k] == 0.0
    {
      AllZeroLagSum(s, k, |s| - k);
    }
    assert DescentEnd(c) == 0;
    var m := FirstMaxIn(c, 0, |c|);
    assert c[m] == 0.0;
    assert m == 0;
  }

  /**
   * As written, a voiced frame trimmed to a single sample also makes the source divide by a lag of 0: the only
   * lag is 0, and its correlation, a square, is above -1.
   */
  lemma OneSampleSliceHasZeroLag(buf: seq<real>)
    requires |buf| >= 2
    requires |Trimmed(buf)| == 1
    ensures LagAsWritten(buf) == 0.0
  {
    var s := Trimmed(buf);
    var c := Correlations(s);
    ZeroLagIsEnergy(s);
    assert c[0] >= 0.0;
    assert FirstMaxIn(c, 0, 1) == 0;
  }

  /** Five samples: the frame is voiced and trims to its single sample 0.1 at index 2. */
  lemma FiveSampleFrameDividesByZero(sampleRate: real)
    ensures !IsSilent([0.5, 0.5, 0.1, 0.1, 0.5])
    ensures Trimmed([0.5, 0.5, 0.1, 0.1, 0.5]) == [0.1]
    ensures LagAsWritten([0.5, 0.5, 0.1, 0.1, 0.5]) == 0.0
  {
    var f := [0.5, 0.5, 0.1, 0.1, 0.5];
    assert FirstQuietFrom(f, 2) == 2;
    assert LastQuietFrom(f, 2) == 3;
    assert Trimmed(f) == [0.1];
    OneSampleSliceHasZeroLag(f);
  }

  /** An eight-sample frame: loud at both ends, zero in the middle. */
  const LoudEdgesFrame: seq<real> := [0.5, 0.5, 0.0, 0.0, 0.0, 0.0, 0.5, 0.5]

  lemma LoudEdgesFrameIsVoiced()
    ensures !IsSilent(LoudEdgesFrame)
  {
  }

  lemma LoudEdgesFrameTrim()
    ensures TrimStart(LoudEdgesFrame) == 2 && TrimEnd(LoudEdgesFrame) == 5
    ensures Trimmed(LoudEdgesFrame) == [0.0, 0.0, 0.0]
  {
  }

  /**
   * The frame above passes the gate, its significant part is samples 2 .. 4 (all zero), and the lag the
   * source divides by is 0. The corrected estimate reports no signal for it.
   */
  lemma LoudEdgesFrameDividesByZero(sampleRate: real)
    ensures !IsSilent(LoudEdgesFrame)
    ensures LagAsWritten(LoudEdgesFrame) == 0.0
    ensures Estimate(LoudEdgesFrame, sampleRate) == NoSignal
  {
    LoudEdgesFrameIsVoiced();
    LoudEdgesFrameTrim();
    ZeroSliceHasZeroLag(LoudEdgesFrame);
  }

  /** autoCorrelate of script.js:110-155, with explicit guards where the source reads past its arrays. */
  method AutoCorrelate(buf: seq<real>, sampleRate: real) returns (pitch: Pitch)
    requires |buf| >= 2
    ensures pitch == Estimate(buf, sampleRate)
  {
    var silent := SignalGate(buf);
    if silent {
      return NoSignal;
    }
    var r1, r2 := Trim(buf);
    TrimBounds(buf);
    var slice := buf[r1..r2];
    var c := AutoCorrelation(slice);
    var d := SkipDescent(c);
    var maxpos := FindPeak(c, d);
    var t0 := Interpolate(c, maxpos);
    assert slice == Trimmed(buf);
    if t0 <= 0.0 {
      pitch := NoSignal;
    } else {
      pitch := Frequency(sampleRate / t0);
    }
  }
}

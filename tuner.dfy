/**
 * One tick of the tuner's update loop (updatePitch in script.js:61-108): estimate the pitch of the frame,
 * and on silence empty the smoothing window; otherwise find the nearest string, push the cents deviation into
 * the window, and show the smoothed deviation on the needle and as a status.
 */
module Tuner {
  import opened PitchDetection
  import opened GuitarStrings
  import opened Smoothing
  import opened Needle
  import opened Status

  /** buflen of script.js:55: the number of samples the analyser delivers each tick. */
  const FrameLength: nat := 2048

  /** What a tick shows. */
  datatype Readout =
    | Waiting  // "Toque uma corda", the needle at 0 degrees, no highlight
    | Reading(hz: int, note: string, angle: real, state: TuningState)

  /** Math.round: the nearest integer, halves rounded up. */
  function Round(x: real): (n: int)
    ensures x - 0.5 < n as real <= x + 0.5
  {
    (x + 0.5).Floor
  }

  /** The tuner's state between ticks. */
  class Session {
    /** centsBuffer of script.js:58 */
    var centsBuffer: seq<real>
    /** Every cents value pushed since the last silent tick, oldest first. */
    ghost var voiced: seq<real>

    /** The window is the eight most recent cents of the current voiced run. */
    ghost predicate Valid()
      reads this
    {
      centsBuffer == Recent(voiced, BufferSize)
    }

    constructor ()
      ensures Valid() && centsBuffer == [] && voiced == []
    {
      centsBuffer := [];
      voiced := [];
    }

    /**
     * One call of updatePitch, given the frame the analyser filled, the audio context's sample rate, and the
     * cents function getCents of script.js:171-173 (a base-2 logarithm, not modelled). The only caller
     * passes FrameLength samples; the estimator needs at least two.
     */
    method Tick(buf: seq<real>, sampleRate: real, getCents: (real, real) -> real) returns (shown: Readout)
      requires Valid()
      requires |buf| >= 2
      modifies this
      ensures Valid()
      ensures Estimate(buf, sampleRate) == NoSignal ==> centsBuffer == [] && voiced == [] && shown == Waiting
      ensures Estimate(buf, sampleRate).Frequency? ==>
                var pitch := Estimate(buf, sampleRate).hz;
                var closest := Strings[Closest(Strings, pitch)];
                var cents := getCents(pitch, closest.freq);
                voiced == old(voiced) + [cents]
                && centsBuffer == PushBounded(old(centsBuffer), cents, BufferSize)
                && 1 <= |centsBuffer| <= BufferSize
                && shown == Reading(Round(pitch), closest.note,
                                    NeedleAngle(Mean(centsBuffer)), Classify(Mean(centsBuffer)))
    {
      var ac := AutoCorrelate(buf, sampleRate);
      if ac == NoSignal {
        centsBuffer := [];
        voiced := [];
        shown := Waiting;
      } else {
        var pitch := ac.hz;
        var closest := FindClosestString(pitch);
        var cents := getCents(pitch, closest.freq);
        PushKeepsRecent(voiced, cents, BufferSize);
        centsBuffer := centsBuffer + [cents];
        if |centsBuffer| > BufferSize {
          centsBuffer := centsBuffer[1..];
        }
        voiced := voiced + [cents];
        var smoothedCents := Mean(centsBuffer);
        shown := Reading(Round(pitch), closest.note, NeedleAngle(smoothedCents), Classify(smoothedCents));
      }
    }
  }
}

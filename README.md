# Guitar tuner core, modelled in Dafny

The tuner listens to a microphone and, once per animation frame, takes a frame of 2048 samples. It estimates
the pitch of that frame by autocorrelation. It then finds the nearest of the six strings of standard tuning
(E A D G B e) and works out how many cents the pitch is off. It smooths that deviation over the last eight
frames and turns the smoothed value into a needle angle and a status: in tune, too low or too high. A silent
frame shows "play a string" and empties the smoothing window.

The model covers that pipeline with exact `real` arithmetic:

- `numbers.dfy` (module `Numbers`): `Abs`, `Max`, `Min` for `Math.abs`, `Math.max`, `Math.min`.
- `pitch_detection.dfy` (module `PitchDetection`): `autoCorrelate`. It has the silence gate, the edge
  trimming, the autocorrelation array filled in place, the descent skip, the first-maximum peak search and the
  parabolic refinement. Each loop is a method proved equal to a specification function, and lemmas state what
  those functions mean.
- `guitar_strings.dfy` (module `GuitarStrings`): the string table and `findClosestString`, a first-minimum
  search.
- `needle.dfy` (module `Needle`): the clamp and the scaling of `updateNeedle`.
- `status.dfy` (module `Status`): the three-way status split.
- `smoothing.dfy` (module `Smoothing`): the bounded FIFO `centsBuffer` and its mean.
- `tuner.dfy` (module `Tuner`): one call of `updatePitch`. It is a method of the class `Session`, whose field
  `centsBuffer` persists between ticks.

The tuner has one configuration: six fixed strings (script.js:15-22), cents smoothing over 8 values
(script.js:59) and a tolerance of 5 cents (script.js:92). A few details of the code shape the model:

- The backward trimming scan looks only at the back half of the frame (indices above `size / 2`). The kept
  slice `[r1, r2)` excludes index `r2`, so with the default `r2 = size - 1` the last sample is dropped.
- The loop bound `i < size / 2` divides in floating point. It is modelled as `2 * i < size`.

## Model

| member | source | states |
|---|---|---|
| `PitchDetection.SignalGate` | script.js:112-120 | the loop's verdict is silence exactly when the frame is non-empty and its mean square is below 0.0001 |
| `PitchDetection.GateMatchesRms` | script.js:118-120 | for any non-negative root of the mean square, that verdict is the source's test `rms < 0.01` |
| `PitchDetection.ZeroFrameIsSilent` | script.js:113-120 | a non-empty frame of zeros is always silent |
| `PitchDetection.FirstQuietFrom` | script.js:124-125 | the front scan yields the first front-half index whose sample has magnitude below 0.2, or 0 when there is none |
| `PitchDetection.LastQuietFrom` | script.js:126-127 | the back scan yields the last index past the middle whose sample has magnitude below 0.2, or size-1 when there is none |
| `PitchDetection.Trim` | script.js:123-127 | the two loops with `break` compute exactly `r1` and `r2` as those scans define them |
| `PitchDetection.TrimIndicesAreTheEdges` | script.js:123-127 | `r1` is the first quiet front-half index (or 0) and `r2` the last quiet index past the middle (or size-1) |
| `PitchDetection.TrimBounds` | script.js:123-130 | for two samples or more, 0 <= r1 < size/2 <= r2 <= size-1, so the kept slice is non-empty |
| `PitchDetection.Trimmed` | script.js:129-130 | the slice `buf.slice(r1, r2)` holds at least one sample |
| `PitchDetection.AutoCorrelation` | script.js:133-136 | the nested loop leaves c[i] equal to the sum of s[j]*s[j+i] over j < size-i, for every lag i |
| `PitchDetection.ZeroLagIsEnergy` | script.js:133-136 | c[0] is the sum of squares of the slice, hence never negative |
| `PitchDetection.DescentEndFrom` | script.js:138 | the skip stops at an index d where c is strictly decreasing on [0, d], and c[d] <= c[d+1] unless d is the last lag |
| `PitchDetection.SkipDescent` | script.js:138 | the `while` loop computes exactly that d |
| `PitchDetection.FirstMaxIn` | script.js:139-145 | the first index of a maximum of c over a range: no entry in the range is larger, every earlier one is strictly smaller |
| `PitchDetection.Peak` | script.js:139-145 | maxpos is -1 exactly when every c[i] for i >= d is at most -1; otherwise d <= maxpos < size, c[maxpos] >= c[i] for all i in [d, size), and maxpos is the first such index |
| `PitchDetection.FindPeak` | script.js:139-145 | the loop with running maximum -1 computes exactly that maxpos |
| `PitchDetection.Interpolate` | script.js:146-152 | the parabola step computes the refined lag, keeping the lag unchanged at either end of c and when `a` is 0; for a peak found past lag 0 the result lies within half a lag of the peak |
| `PitchDetection.VertexOffsetBound` | script.js:150-152 | when both neighbours are no higher than the middle value, the vertex is within half a lag of it |
| `PitchDetection.RefinedLagNearPeak` | script.js:138-152 | for a peak past lag 0, the refined lag lies within half a lag of the peak |
| `PitchDetection.EstimateFromPeakLag` | script.js:110-154 | a frequency is reported exactly when the frame is voiced and the peak lag is at least 1; it is the sample rate over a lag within half a lag of the peak, and it is positive at a positive sample rate |
| `PitchDetection.ZeroSliceHasZeroLag` | script.js:138-154 | a voiced frame whose trimmed slice is all zeros has descent end 0 and peak 0, so the source divides by a lag of 0 |
| `PitchDetection.OneSampleSliceHasZeroLag` | script.js:129-154 | a voiced frame trimmed to a single sample also gives the source a lag of 0 to divide by |
| `PitchDetection.EvenFrameKeepsTwoSamples` | script.js:123-130 | a frame of even length, four samples or more, keeps at least two samples, so the one-sample case never arises for the 2048-sample frames of script.js:55 |
| `PitchDetection.FiveSampleFrameDividesByZero` | script.js:110-154 | the voiced frame 0.5, 0.5, 0.1, 0.1, 0.5 trims to one sample and has source lag 0 |
| `PitchDetection.LoudEdgesFrameDividesByZero` | script.js:110-154 | a concrete voiced frame whose source lag is 0; the corrected estimate reports no signal for it |
| `PitchDetection.AutoCorrelate` | script.js:110-155 | the whole estimator computes `Estimate` for the frame and sample rate |
| `GuitarStrings.ClosestAmong` | script.js:161-167 | among the first n strings, the index returned has the least distance, and every earlier index is strictly farther |
| `GuitarStrings.ClosestIsFirstClosest` | script.js:157-169 | an index is the lookup's choice exactly when it is the first nearest string, so ties go to the earlier string |
| `GuitarStrings.FindClosestString` | script.js:157-169 | the loop, starting from a minimum of Infinity, returns the first nearest string of the table |
| `GuitarStrings.ExactFrequencyMapsToItsString` | script.js:15-22 | each string's own frequency maps to that string |
| `GuitarStrings.A111IsNearestToA` | script.js:15-22 | 111 Hz maps to the A string |
| `Needle.NeedleAngle` | script.js:175-179 | the angle lies in [-90, 90]; it is 1.8 times the cents when they lie in [-50, 50], and it is pinned at an end beyond that |
| `Needle.NeedleAngleMonotone` | script.js:177-179 | the angle never decreases as the cents grow |
| `Needle.NeedleAngleSymmetric` | script.js:177-179 | opposite cents give opposite angles |
| `Status.Classify` | script.js:92-104 | in tune exactly when -5 < s < 5, flat exactly when s <= -5, sharp exactly when s >= 5 |
| `Status.ClassifyMonotone` | script.js:92-104 | raising the smoothed cents never moves the status from sharp towards flat |
| `Smoothing.PushBounded` | script.js:85-86 | after a push and at most one shift, a window that was within capacity stays within it, and it ends with the new value |
| `Smoothing.PushKeepsRecent` | script.js:85-86 | pushing onto the last n values of a history gives the last n values of the extended history |
| `Smoothing.PushAllKeepsRecent` | script.js:84-86 | after any run of voiced ticks the window holds the most recent n values in arrival order, the oldest dropped first |
| `Smoothing.NineValuesKeepLastEight` | script.js:59 | nine values pushed into an empty window of eight leave the last eight |
| `Smoothing.Mean` | script.js:87 | the smoothed value, with the window length times it giving back the left-fold sum (`reduce` from 0); `Smoothing.MeanWithinWindow` and `Smoothing.MeanOfOne` state what it means |
| `Smoothing.SumBounds` | script.js:87 | the sum of values within [lo, hi] lies between n*lo and n*hi |
| `Smoothing.MeanBetween` | script.js:87 | the mean of values within [lo, hi] lies within [lo, hi] |
| `Smoothing.MeanWithinWindow` | script.js:87 | the smoothed value lies between the window's least and greatest value |
| `Smoothing.MeanOfOne` | script.js:87 | a window of one value smooths to that value |
| `Tuner.Round` | script.js:77 | `Math.round` gives the integer within half a unit, halves rounded up |
| `Tuner.Session.constructor` | script.js:58 | the window starts empty |
| `Tuner.Session.Tick` | script.js:61-105 | a silent tick empties the window and shows the waiting state; a voiced tick pushes the cents to the nearest string into the window, keeps it the eight most recent values, and shows the rounded pitch, the note, and the angle and status of the window's mean |

## Findings

| source | as written | input that shows it | evidently intended | confidence | as-written member | corrected member |
|---|---|---|---|---|---|---|
| script.js:138-154 | a voiced frame whose trimmed slice is all zeros or, for a frame of 2 samples or of odd length, is a single sample, gets peak lag 0; interpolation is skipped and the result is `sampleRate / 0`, that is Infinity, which `updatePitch` shows as a pitch | 2048 samples of 0.5 with zeros at 1000..1047 (r1 = 1000, r2 = 1047); in the model, the eight samples 0.5, 0.5, 0, 0, 0, 0, 0.5, 0.5, and, for `autoCorrelate` alone, the five samples 0.5, 0.5, 0.1, 0.1, 0.5 (a frame length the program never delivers: its 2048-sample frames keep at least two samples, so only the all-zeros case reaches `updatePitch`) | report no signal when the lag is not positive | not executed; the division by zero follows from the code, but how often real audio reaches it is unknown | `PitchDetection.ZeroSliceHasZeroLag` | `PitchDetection.EstimateFromPeakLag` |

## Left out

- Browser and audio I/O is not modelled. This covers the DOM handles and their text and class updates, the
  audio context, the low-pass filter, the analyser, `getUserMedia`, and the error path through the console
  and `alert` (script.js:1-53).
- Scheduling is left out: the `requestAnimationFrame` loop and the `isRunning` flag (script.js:61-62, 107).
  `Tuner.Session.Tick` is one call.
- `getCents` (script.js:171-173) uses `Math.log2`, which is not modelled. `Tick` takes it as a function
  parameter, so nothing is proved about cents values beyond what `Tick` passes on.
- The square root of the RMS gate is not modelled. The gate compares the mean square with 0.0001, and
  `GateMatchesRms` ties that to the source's comparison for any non-negative root.
- Floating point is not modelled: numbers are exact reals, with no NaN, Infinity or rounding. Claims about
  the estimator's accuracy, such as "within 1% of a sine's frequency", are not stated.
- Reads past the ends of arrays are replaced by explicit guards: `c[d + 1]` at the end of the descent skip,
  and `c[T0 - 1]` / `c[T0 + 1]` at the edges. At those edges the source gets NaN and skips the refinement;
  the guards give the same result.
- `PitchDetection.AutoCorrelate`: when the peak search finds no lag (every correlation from `d` on is at most
  -1), the source returns `-sampleRate`. The model reports no signal instead.
- `PitchDetection.AutoCorrelate`: when the peak lag is 0, the source returns `sampleRate / 0`, as in the
  finding above. The model reports no signal instead.
- `PitchDetection.AutoCorrelate`: requires at least two samples. The only caller passes 2048 (script.js:55-56,
  64-65). A frame of 0 samples passes the gate, because `sqrt(0/0)` is NaN and `NaN < 0.01` is false. For 0
  samples `r2` is -1, and for 1 sample `r2` is 0 and the back loop does not run; either way the kept slice is
  empty, `c` is empty, the peak search leaves `maxpos` at -1, and the source returns `-sampleRate`.
- `Tuner.Session.Tick`: where the model's estimator reports no signal in place of `-sampleRate` or
  `sampleRate / 0`, the model's tick empties the window and shows the waiting state. The source's
  `updatePitch` instead shows "-sampleRate Hz" (the rounded negated sample rate of the device) or
  "Infinity Hz", picks the E string, and pushes NaN or Infinity into `centsBuffer` (script.js:77-86). While
  that value stays in the window, `smoothedCents` is NaN or Infinity, so the status falls to the last
  branch, too sharp (script.js:92-104), and the needle gets a NaN rotation or is pinned at 90 degrees.
- The "correct" highlight on the note and the needle is not modelled separately. It is on exactly when the
  state is `InTune`.
- The status texts are not modelled as strings. They are named in a comment on `Status.TuningState`.

/** The three-way status split of the smoothed cents (script.js:91-104). */
module Status {
  import opened Numbers

  /** Within this many cents of the string the note counts as in tune. */
  const Tolerance: real := 5.0

  /** InTune shows "Perfeito!" and highlights the note, Flat "Muito Baixo (Aperte)", Sharp "Muito Alto (Solte)". */
  datatype TuningState = Flat | InTune | Sharp

  function Classify(smoothedCents: real): (state: TuningState)
    ensures state == InTune <==> -Tolerance < smoothedCents < Tolerance
    ensures state == Flat <==> smoothedCents <= -Tolerance
    ensures state == Sharp <==> smoothedCents >= Tolerance
  {
    if Abs(smoothedCents) < Tolerance then InTune
    else if smoothedCents < 0.0 then Flat
    else Sharp
  }

  /** Flat before in tune before sharp. */
  function Rank(state: TuningState): nat
  {
    match state
    case Flat => 0
    case InTune => 1
    case Sharp => 2
  }

  /** Raising the pitch never moves the status from sharp towards flat. */
  lemma ClassifyMonotone(x: real, y: real)
    requires x <= y
    ensures Rank(Classify(x)) <= Rank(Classify(y))
  {
  }
}

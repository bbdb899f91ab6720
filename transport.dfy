/** The transport bar (src/components/Transport.tsx). Its only logic is
    the tempo field, which clamps whatever number is typed into 60..200 BPM. */
module Transport {
  import opened Numeric

  const MinTempo: real := 60.0
  const MaxTempo: real := 200.0

  /** `Math.max(60, Math.min(200, input))`. */
  function ClampTempo(input: real): (bpm: real)
    ensures MinTempo <= bpm <= MaxTempo
    ensures MinTempo <= input <= MaxTempo ==> bpm == input
    ensures input < MinTempo ==> bpm == MinTempo
    ensures input > MaxTempo ==> bpm == MaxTempo
  {
    Clamp(MinTempo, MaxTempo, input)
  }

  /** Clamping an accepted tempo again leaves it as it is. */
  lemma ClampTempoIdempotent(input: real)
    ensures ClampTempo(ClampTempo(input)) == ClampTempo(input)
  {
  }

  /** A faster input never gives a slower tempo. */
  lemma ClampTempoMonotone(a: real, b: real)
    requires a <= b
    ensures ClampTempo(a) <= ClampTempo(b)
  {
    ClampMonotone(MinTempo, MaxTempo, a, b);
  }
}

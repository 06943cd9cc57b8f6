/** Volume levels of the three mixer channels (BGM, sound effects, voice). */
module Volume {

  /**
   * `max(0.0, min(1.0, v))`: the level stored by every volume setter. Values already in
   * range are kept, values below the range become silence, values above become full volume.
   * Reals are exact here; float rounding is not modelled.
   */
  function Clamp01(v: real): (r: real)
    ensures 0.0 <= r <= 1.0
    ensures 0.0 <= v <= 1.0 ==> r == v
    ensures v < 0.0 ==> r == 0.0
    ensures v > 1.0 ==> r == 1.0
  {
    if 1.0 < v then 1.0 else if v < 0.0 then 0.0 else v
  }

  /** Clamping twice is clamping once. */
  lemma ClampIdempotent(v: real)
    ensures Clamp01(Clamp01(v)) == Clamp01(v)
  {
  }
}

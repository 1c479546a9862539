/** How fast a consumer runs relative to the global tick: a clamped multiplier and a caption. */
module TickRate {
  import opened Wrappers
  import opened Text
  import opened Numeric

  const MinRelativeSpeed: real := 0.05
  const MaxRelativeSpeed: real := 20.0

  /** An IEEE double as far as the rate profile looks at it. */
  datatype Double = Finite(value: real) | NaN | Infinity(positive: bool)

  /** The label of a profile: the caller's own text, or the one formatted from the speed
      (the source prints it as "x" followed by the speed with at most two decimals). */
  datatype RateLabel = Given(text: string) | FromSpeed(speed: real)

  datatype RateError = SpeedNotFinite

  datatype TickRateProfile = TickRateProfile(relativeSpeed: real, caption: RateLabel)

  /** The constructor: refuses NaN and infinities, clamps the speed, and keeps a caption that is
      not blank. */
  function Create(relativeSpeed: Double, caption: Option<string>): (r: Result<TickRateProfile, RateError>)
    ensures r.Ok? <==> relativeSpeed.Finite?
    ensures r.Err? ==> r.error == SpeedNotFinite
    ensures r.Ok? ==> MinRelativeSpeed <= r.value.relativeSpeed <= MaxRelativeSpeed
    ensures r.Ok? && MinRelativeSpeed <= relativeSpeed.value <= MaxRelativeSpeed ==> r.value.relativeSpeed == relativeSpeed.value
    ensures r.Ok? && relativeSpeed.value < MinRelativeSpeed ==> r.value.relativeSpeed == MinRelativeSpeed
    ensures r.Ok? && relativeSpeed.value > MaxRelativeSpeed ==> r.value.relativeSpeed == MaxRelativeSpeed
    ensures r.Ok? && caption.Some? && !IsBlank(caption.value) ==> r.value.caption == Given(caption.value)
    ensures r.Ok? && (caption.None? || IsBlank(caption.value)) ==> r.value.caption == FromSpeed(r.value.relativeSpeed)
  {
    if !relativeSpeed.Finite? then Err(SpeedNotFinite)
    else
      var clamped := ClampReal(relativeSpeed.value, MinRelativeSpeed, MaxRelativeSpeed);
      var text := if caption.None? || IsBlank(caption.value) then FromSpeed(clamped) else Given(caption.value);
      Ok(TickRateProfile(clamped, text))
  }

  /** The shared profile for ordinary speed. */
  function Normal(): (r: TickRateProfile)
    ensures r.relativeSpeed == 1.0 && r.caption == Given("Normal")
  {
    TickRateProfile(1.0, Given("Normal"))
  }

  /** Normal is what the constructor builds from speed 1 and caption "Normal". */
  lemma NormalIsConstructed()
    ensures Create(Finite(1.0), Some("Normal")) == Ok(Normal())
  {
    assert !IsBlank("Normal") by { assert !IsWhiteSpace("Normal"[0]); }
  }

  /** Re-creating a profile from its own speed and caption gives the same profile. */
  lemma CreateIdempotent(relativeSpeed: Double, caption: Option<string>)
    requires Create(relativeSpeed, caption).Ok?
    ensures var p := Create(relativeSpeed, caption).value;
            p.caption.Given? ==> Create(Finite(p.relativeSpeed), Some(p.caption.text)) == Ok(p)
    ensures var p := Create(relativeSpeed, caption).value;
            p.caption.FromSpeed? ==> Create(Finite(p.relativeSpeed), None) == Ok(p)
  {
  }
}

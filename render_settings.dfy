/** Render settings: the knobs the client renderer is tuned by, the validator that bounds
    them, and the store that holds the settings currently in force. */
module Rendering {
  import opened Wrappers
  import opened Text

  datatype RenderSettings = RenderSettings(
    targetFps: int, resolutionScale: real, spriteSmoothing: bool, particleDensity: int, gpuTier: string)

  const HighPerformance := RenderSettings(120, 1.5, true, 100, "tier3")
  const Balanced := RenderSettings(60, 1.0, true, 70, "tier2")
  const BatterySaver := RenderSettings(30, 0.75, false, 40, "tier1")

  /** The GPU tiers the validator recognises, compared ignoring case. */
  const AllowedTiers: seq<string> := ["tier1", "tier2", "tier3"]

  /** Why the validator rejects settings; the first three are ArgumentOutOfRangeException in
      the source, the last an ArgumentException. */
  datatype SettingsError = FpsOutOfRange | ScaleOutOfRange | DensityOutOfRange | UnknownTier(tier: string)

  predicate RecognisedTier(tier: string)
  {
    exists i | 0 <= i < |AllowedTiers| :: EqualsIgnoreCase(AllowedTiers[i], tier)
  }

  /** Settings the renderer accepts: every bound of the validator, stated at once. */
  predicate WithinBounds(s: RenderSettings)
  {
    30 <= s.targetFps <= 240 && 0.25 <= s.resolutionScale <= 2.5 && 0 <= s.particleDensity <= 100
    && RecognisedTier(s.gpuTier)
  }

  /** Validate: None when the settings are accepted, otherwise the first check that fails, in
      the order frame rate, resolution scale, particle density, GPU tier. */
  function Violation(s: RenderSettings): (r: Option<SettingsError>)
    ensures r == None <==> WithinBounds(s)
    ensures r == Some(FpsOutOfRange) <==> !(30 <= s.targetFps <= 240)
    ensures r == Some(ScaleOutOfRange) <==> 30 <= s.targetFps <= 240 && !(0.25 <= s.resolutionScale <= 2.5)
    ensures r == Some(DensityOutOfRange)
            <==> 30 <= s.targetFps <= 240 && 0.25 <= s.resolutionScale <= 2.5 && !(0 <= s.particleDensity <= 100)
    ensures r == Some(UnknownTier(s.gpuTier))
            <==> 30 <= s.targetFps <= 240 && 0.25 <= s.resolutionScale <= 2.5 && 0 <= s.particleDensity <= 100
                 && !RecognisedTier(s.gpuTier)
  {
    if s.targetFps < 30 || s.targetFps > 240 then Some(FpsOutOfRange)
    else if s.resolutionScale < 0.25 || s.resolutionScale > 2.5 then Some(ScaleOutOfRange)
    else if s.particleDensity < 0 || s.particleDensity > 100 then Some(DensityOutOfRange)
    else if !RecognisedTier(s.gpuTier) then Some(UnknownTier(s.gpuTier))
    else None
  }

  /** The tier check ignores case: "TIER2" is as good as "tier2". */
  lemma TierIgnoresCase(tier: string)
    requires RecognisedTier(tier)
    ensures forall other | EqualsIgnoreCase(other, tier) :: RecognisedTier(other)
  {
  }

  /** The three presets pass the validator. */
  lemma PresetsAreValid()
    ensures Violation(HighPerformance) == None
    ensures Violation(Balanced) == None
    ensures Violation(BatterySaver) == None
  {
    assert EqualsIgnoreCase(AllowedTiers[2], HighPerformance.gpuTier);
    assert EqualsIgnoreCase(AllowedTiers[1], Balanced.gpuTier);
    assert EqualsIgnoreCase(AllowedTiers[0], BatterySaver.gpuTier);
  }

  /** Each out-of-bounds sample fails, on the check it violates. */
  lemma OutOfBoundsSamplesFail()
    ensures Violation(RenderSettings(10, 1.0, true, 50, "tier1")) == Some(FpsOutOfRange)
    ensures Violation(RenderSettings(60, 3.0, true, 50, "tier2")) == Some(ScaleOutOfRange)
    ensures Violation(RenderSettings(60, 1.0, true, 150, "tier2")) == Some(DensityOutOfRange)
    ensures Violation(RenderSettings(60, 1.0, true, 50, "tier9")) == Some(UnknownTier("tier9"))
  {
    forall i | 0 <= i < |AllowedTiers| ensures !EqualsIgnoreCase(AllowedTiers[i], "tier9") {
      DifferAt(AllowedTiers[i], "tier9", 4);
    }
  }

  class RenderSettingsStore {
    var current: RenderSettings
    /** The settings every successful Update stored, oldest first. */
    ghost var accepted: seq<RenderSettings>

    /** The settings in force are the last ones accepted (Balanced before any), and every
        accepted value passed the validator. */
    ghost predicate Valid()
      reads this
    {
      current == (if accepted == [] then Balanced else accepted[|accepted| - 1])
      && forall i | 0 <= i < |accepted| :: WithinBounds(accepted[i])
    }

    constructor()
      ensures Valid() && accepted == [] && current == Balanced
    {
      current := Balanced;
      accepted := [];
    }

    /** Current: the settings in force, which always pass the validator. */
    function Current(): (r: RenderSettings)
      reads this
      ensures Valid() ==> WithinBounds(r)
      ensures Valid() ==> r == (if accepted == [] then Balanced else accepted[|accepted| - 1])
    {
      PresetsAreValid();
      current
    }

    /** Update validates first: rejected settings leave the store as it was; accepted settings
        are stored and returned unchanged. */
    method Update(settings: RenderSettings) returns (r: Result<RenderSettings, SettingsError>)
      requires Valid()
      modifies this
      ensures Valid()
      ensures Violation(settings).Some? ==>
                r == Err(Violation(settings).value) && current == old(current) && accepted == old(accepted)
      ensures Violation(settings).None? ==>
                r == Ok(settings) && current == settings && accepted == old(accepted) + [settings]
    {
      var problem := Violation(settings);
      if problem.Some? {
        return Err(problem.value);
      }
      current := settings;
      accepted := accepted + [settings];
      r := Ok(current);
    }
  }
}

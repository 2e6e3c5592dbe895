/**
 * The reverb stage's parameter mapping (ReverbUnit::setParams in
 * modules/ReverbClass.h): the settings snapshot becomes the
 * juce::Reverb::Parameters record handed to the library reverb, whose
 * processing is not modelled.
 */
module ReverbClass {
  import opened ChainSettings

  /** juce::Reverb::Parameters. */
  datatype ReverbParameters = ReverbParameters(
    roomSize: real, damping: real, wetLevel: real, dryLevel: real, width: real, freezeMode: real)

  /** The record setParams builds from the settings. */
  function ReverbParams(s: ChainSettings): ReverbParameters
  {
    ReverbParameters(
      roomSize := s.reverbRoomSize,
      damping := 1.0 - s.reverbIntensity,
      wetLevel := s.reverbWetMix,
      dryLevel := 1.0 - s.reverbWetMix,
      width := s.reverbSpread,
      freezeMode := if s.reverbShimmer then 1.0 else 0.0)
  }

  /** More intensity means less damping: damping is 1 - intensity. */
  lemma DampingFallsWithIntensity(s: ChainSettings, t: ChainSettings)
    ensures ReverbParams(s).damping + s.reverbIntensity == 1.0
    ensures s.reverbIntensity < t.reverbIntensity ==> ReverbParams(s).damping > ReverbParams(t).damping
  {
  }

  /** The dry and wet levels always add up to 1, and the wet level is the wet mix. */
  lemma DryWetBalance(s: ChainSettings)
    ensures ReverbParams(s).dryLevel + ReverbParams(s).wetLevel == 1.0
    ensures ReverbParams(s).wetLevel == s.reverbWetMix
  {
  }

  /** Room size and width are passed through unchanged. */
  lemma PassThrough(s: ChainSettings)
    ensures ReverbParams(s).roomSize == s.reverbRoomSize && ReverbParams(s).width == s.reverbSpread
  {
  }

  /** Freeze mode is on (1) exactly when shimmer is set, and off (0) otherwise. */
  lemma FreezeFollowsShimmer(s: ChainSettings)
    ensures ReverbParams(s).freezeMode == 1.0 <==> s.reverbShimmer
    ensures ReverbParams(s).freezeMode == 0.0 <==> !s.reverbShimmer
  {
  }

  /** Settings in [0, 1] give parameters in [0, 1]. */
  lemma UnitRange(s: ChainSettings)
    requires 0.0 <= s.reverbIntensity <= 1.0 && 0.0 <= s.reverbWetMix <= 1.0
    requires 0.0 <= s.reverbRoomSize <= 1.0 && 0.0 <= s.reverbSpread <= 1.0
    ensures var p := ReverbParams(s);
            && 0.0 <= p.roomSize <= 1.0 && 0.0 <= p.damping <= 1.0 && 0.0 <= p.wetLevel <= 1.0
            && 0.0 <= p.dryLevel <= 1.0 && 0.0 <= p.width <= 1.0 && 0.0 <= p.freezeMode <= 1.0
  {
  }

  /** The settings' defaults: damping 0.5, dry 0.67, wet 0.33, room 0.5, full width, no freeze. */
  lemma DefaultParams()
    ensures ReverbParams(Defaults) == ReverbParameters(0.5, 0.5, 0.33, 0.67, 1.0, 0.0)
  {
  }
}

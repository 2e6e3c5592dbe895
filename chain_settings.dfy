/**
 * The flat snapshot of user-facing parameters that every stage reads its
 * settings from (ChainSettings.h). Gains are in dB, frequencies in Hz,
 * levels are ratios, and the booleans are bypass and shimmer switches.
 */
module ChainSettings {

  datatype ChainSettings = ChainSettings(
    preGain: real,
    distortionTone: real, distortionPreGain: real, distortionPostGain: real, distortionClarity: real,
    distortionBypass: bool,
    ampInputGain: real, ampLowEnd: real, ampMids: real, ampHighEnd: real,
    ampBypass: bool,
    delayTime: real, delayWetLevel: real, delayFeedback: real,
    delayBypass: bool,
    reverbIntensity: real, reverbWetMix: real, reverbRoomSize: real, reverbSpread: real,
    reverbShimmer: bool, reverbBypass: bool,
    noiseGate: real, outputGain: real)

  /** A default-constructed ChainSettings: the member initialisers of the struct. */
  const Defaults: ChainSettings := ChainSettings(
    preGain := 0.0,
    distortionTone := 1.0, distortionPreGain := 50.0, distortionPostGain := 0.0, distortionClarity := 1000.0,
    distortionBypass := false,
    ampInputGain := 1.0, ampLowEnd := 0.0, ampMids := 0.0, ampHighEnd := 20000.0,
    ampBypass := false,
    delayTime := 0.0, delayWetLevel := 0.0, delayFeedback := 0.0,
    delayBypass := false,
    reverbIntensity := 0.5, reverbWetMix := 0.33, reverbRoomSize := 0.5, reverbSpread := 1.0,
    reverbShimmer := false, reverbBypass := false,
    noiseGate := 0.0, outputGain := 0.0)
}

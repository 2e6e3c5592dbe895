/**
 * The processor glue (PluginProcessor.h and PluginProcessor.cpp): the
 * per-channel MonoChain of five stages, the Distortion and Reverb stage
 * classes declared next to it, the parameter layout, getChainSettings, and
 * the order in which prepareToPlay and processBlock update the stages.
 *
 * The audio parameters live in a map from parameter ID to its current raw
 * value; the IDs are an enumeration, each with its ID string. How a stage transforms a block (the gain, the distortion chain with
 * its filter state, the convolution, the library reverb, the lowpass) is the
 * parameter `stage`, which is given what processing reads from the chain
 * it belongs to. The host's current sample rate is a parameter too.
 */
module PluginProcessor {
  import opened Dsp
  import opened ChainSettings
  import DistortionClass
  import ReverbClass

  //==============================================================================
  // The parameter layout and getChainSettings

  /** The parameters of the value-tree state, by ID. */
  datatype ParameterId =
    | PreGainParam | DistortionPreGainParam | DistortionToneParam
    | DistortionPostGainParam | DistortionClarityParam | NoiseGateParam

  /** The ID string each parameter is registered and looked up under. */
  function IdString(p: ParameterId): string
  {
    match p
    case PreGainParam => "preGain"
    case DistortionPreGainParam => "distortionPreGain"
    case DistortionToneParam => "distortionTone"
    case DistortionPostGainParam => "distortionPostGain"
    case DistortionClarityParam => "distortionClarity"
    case NoiseGateParam => "noiseGate"
  }

  /** An AudioParameterFloat: its ID, NormalisableRange(min, max, interval, skew) and default. */
  datatype FloatParameter = FloatParameter(
    id: ParameterId, min: real, max: real, interval: real, skew: real, defaultValue: real)

  /** createParameterLayout, in the order the parameters are added. */
  const ParameterLayout: seq<FloatParameter> := [
    FloatParameter(PreGainParam, -24.0, 24.0, 0.5, 1.0, 0.0),
    FloatParameter(DistortionPreGainParam, -10.0, 100.0, 0.5, 1.0, 50.0),
    FloatParameter(DistortionToneParam, 0.01, 100.0, 0.5, 1.0, 5.0),
    FloatParameter(DistortionPostGainParam, -24.0, 24.0, 0.5, 1.0, 0.0),
    FloatParameter(DistortionClarityParam, 0.0, 5000.0, 0.5, 1.0, 1000.0),
    FloatParameter(NoiseGateParam, 10000.0, 20000.0, 0.5, 1.0, 17500.0)
  ]

  /** The raw values of the value-tree state's parameters. */
  type ParameterValues = map<ParameterId, real>

  /** Every parameter getChainSettings reads is present (getRawParameterValue would return null otherwise). */
  predicate HasParameters(values: ParameterValues)
  {
    forall p: ParameterId :: p in values
  }

  /** Every parameter of the layout holds a value within its range, as AudioParameterFloat ensures. */
  predicate WithinRanges(values: ParameterValues)
  {
    forall i :: 0 <= i < |ParameterLayout| ==>
      ParameterLayout[i].id in values
      && ParameterLayout[i].min <= values[ParameterLayout[i].id] <= ParameterLayout[i].max
  }

  /** Every declared default lies within its declared range, and every range is non-empty. */
  lemma DefaultsWithinRanges()
    ensures forall i :: 0 <= i < |ParameterLayout| ==>
              ParameterLayout[i].min < ParameterLayout[i].max
              && ParameterLayout[i].min <= ParameterLayout[i].defaultValue <= ParameterLayout[i].max
  {
  }

  /** The layout declares every parameter once, each under its own ID string. */
  lemma LayoutDeclaresEachParameterOnce(p: ParameterId)
    ensures exists i :: 0 <= i < |ParameterLayout| && ParameterLayout[i].id == p
    ensures forall i, j :: 0 <= i < j < |ParameterLayout| ==> ParameterLayout[i].id != ParameterLayout[j].id
    ensures forall q: ParameterId :: q != p ==> IdString(q) != IdString(p)
  {
    match p
    case PreGainParam => assert ParameterLayout[0].id == p;
    case DistortionPreGainParam => assert ParameterLayout[1].id == p;
    case DistortionToneParam => assert ParameterLayout[2].id == p;
    case DistortionPostGainParam => assert ParameterLayout[3].id == p;
    case DistortionClarityParam => assert ParameterLayout[4].id == p;
    case NoiseGateParam => assert ParameterLayout[5].id == p;
  }

  /** A freshly created value-tree state: every parameter at its default. */
  function DefaultValues(): (values: ParameterValues)
    ensures HasParameters(values)
    ensures forall i :: 0 <= i < |ParameterLayout| ==>
              ParameterLayout[i].id in values && values[ParameterLayout[i].id] == ParameterLayout[i].defaultValue
  {
    var values := map i | 0 <= i < |ParameterLayout| :: ParameterLayout[i].id := ParameterLayout[i].defaultValue;
    assert forall p: ParameterId :: p in values by {
      forall p: ParameterId
        ensures p in values
      {
        LayoutDeclaresEachParameterOnce(p);
      }
    }
    values
  }

  /**
   * getChainSettings: a default ChainSettings with the six parameters the
   * processor reads copied in.
   */
  function GetChainSettings(values: ParameterValues): (s: ChainSettings)
    requires HasParameters(values)
    ensures s.preGain == values[PreGainParam]
    ensures s.distortionPreGain == values[DistortionPreGainParam]
    ensures s.distortionTone == values[DistortionToneParam]
    ensures s.distortionPostGain == values[DistortionPostGainParam]
    ensures s.distortionClarity == values[DistortionClarityParam]
    ensures s.noiseGate == values[NoiseGateParam]
    // every field it does not read keeps the struct's default
    ensures s.(preGain := 0.0, distortionPreGain := 50.0, distortionTone := 1.0,
               distortionPostGain := 0.0, distortionClarity := 1000.0, noiseGate := 0.0) == Defaults
  {
    Defaults.(
      preGain := values[PreGainParam],
      distortionPreGain := values[DistortionPreGainParam],
      distortionTone := values[DistortionToneParam],
      distortionPostGain := values[DistortionPostGainParam],
      distortionClarity := values[DistortionClarityParam],
      noiseGate := values[NoiseGateParam])
  }

  /**
   * With every parameter at its default, the settings differ from the
   * struct's defaults in the tone (5, not 1) and the noise gate (17500 Hz, not 0).
   */
  lemma DefaultSettings()
    ensures HasParameters(DefaultValues())
    ensures GetChainSettings(DefaultValues()) == Defaults.(distortionTone := 5.0, noiseGate := 17500.0)
  {
    var v := DefaultValues();
    assert v[PreGainParam] == v[ParameterLayout[0].id];
    assert v[DistortionPreGainParam] == v[ParameterLayout[1].id];
    assert v[DistortionToneParam] == v[ParameterLayout[2].id];
    assert v[DistortionPostGainParam] == v[ParameterLayout[3].id];
    assert v[DistortionClarityParam] == v[ParameterLayout[4].id];
    assert v[NoiseGateParam] == v[ParameterLayout[5].id];
  }

  /**
   * Values within their ranges give a positive tone and a noise-gate cutoff
   * in [10 kHz, 20 kHz].
   */
  lemma SettingsWithinRanges(values: ParameterValues)
    requires HasParameters(values) && WithinRanges(values)
    ensures var s := GetChainSettings(values);
            && -24.0 <= s.preGain <= 24.0 && -10.0 <= s.distortionPreGain <= 100.0
            && 0.01 <= s.distortionTone <= 100.0 && -24.0 <= s.distortionPostGain <= 24.0
            && 0.0 <= s.distortionClarity <= 5000.0 && 10000.0 <= s.noiseGate <= 20000.0
  {
    assert values[PreGainParam] == values[ParameterLayout[0].id];
    assert values[DistortionPreGainParam] == values[ParameterLayout[1].id];
    assert values[DistortionToneParam] == values[ParameterLayout[2].id];
    assert values[DistortionPostGainParam] == values[ParameterLayout[3].id];
    assert values[DistortionClarityParam] == values[ParameterLayout[4].id];
    assert values[NoiseGateParam] == values[ParameterLayout[5].id];
  }

  //==============================================================================
  // The MonoChain

  /** ChainPositions: the stages of MonoChain. */
  datatype ChainPosition = PreGainStage | DistortionStage | CabSimStage | ReverbStage | NoiseGateStage

  /** The order the ProcessorChain template lists and runs its stages in. */
  const MonoChainOrder: seq<ChainPosition> :=
    [PreGainStage, DistortionStage, CabSimStage, ReverbStage, NoiseGateStage]

  /** The ChainPositions enum value of a stage: its index in MonoChain. */
  function StageIndex(p: ChainPosition): (i: nat)
    ensures i < |MonoChainOrder| && MonoChainOrder[i] == p
  {
    match p
    case PreGainStage => 0
    case DistortionStage => 1
    case CabSimStage => 2
    case ReverbStage => 3
    case NoiseGateStage => 4
  }

  /** Each stage appears once in the chain. */
  lemma StagesAppearOnce(i: nat, j: nat)
    requires i < j < |MonoChainOrder|
    ensures MonoChainOrder[i] != MonoChainOrder[j] && StageIndex(MonoChainOrder[i]) == i
  {
  }

  /**
   * The adjustable state of one MonoChain: the pre-gain in dB, the
   * distortion's processor chain, and the noise gate's duplicator.
   * The pre-gain is None until setGainDecibels is first called: a
   * default-constructed juce::dsp::Gain has linear gain 0, so it silences.
   */
  datatype MonoChain = MonoChain(preGainDb: Option<real>, distortion: DistortionClass.ChainState, noiseGate: Duplicator)

  /**
   * What processing a block reads from a chain: the pre-gain, the
   * coefficients the distortion's highpass and the noise-gate lowpass were
   * built with, and the distortion's gains and shaper. The state objects last
   * assigned to the two duplicators are not part of it.
   */
  datatype ActiveChain = ActiveChain(preGainDb: Option<real>, highPass: Option<Coefs>, distortionPreGainDb: real,
                                     shaper: Shaper, distortionPostGainDb: real, lowPass: Option<Coefs>)

  function Active(m: MonoChain): ActiveChain
  {
    ActiveChain(m.preGainDb, m.distortion.filter.running, m.distortion.preGainDb,
                m.distortion.shaper, m.distortion.postGainDb, m.noiseGate.running)
  }

  /** ProcessorChain::process on one channel's block: the stages in the given order. */
  function RunStages(stages: seq<ChainPosition>, a: ActiveChain, x: seq<real>,
                     stage: (ActiveChain, ChainPosition, seq<real>) -> seq<real>): seq<real>
    decreases |stages|
  {
    if |stages| == 0 then x else RunStages(stages[1..], a, stage(a, stages[0], x), stage)
  }

  /** One MonoChain pass: noiseGate(reverb(cab(distortion(preGain(x))))). */
  lemma MonoChainComposition(a: ActiveChain, x: seq<real>, stage: (ActiveChain, ChainPosition, seq<real>) -> seq<real>)
    ensures RunStages(MonoChainOrder, a, x, stage)
            == stage(a, NoiseGateStage, stage(a, ReverbStage, stage(a, CabSimStage,
                 stage(a, DistortionStage, stage(a, PreGainStage, x)))))
  {
    var y0 := stage(a, PreGainStage, x);
    var y1 := stage(a, DistortionStage, y0);
    var y2 := stage(a, CabSimStage, y1);
    var y3 := stage(a, ReverbStage, y2);
    var y4 := stage(a, NoiseGateStage, y3);
    assert MonoChainOrder[4..][1..] == [];
    assert RunStages(MonoChainOrder[4..], a, y3, stage) == y4;
    assert MonoChainOrder[3..][1..] == MonoChainOrder[4..];
    assert RunStages(MonoChainOrder[3..], a, y2, stage) == y4;
    assert MonoChainOrder[2..][1..] == MonoChainOrder[3..];
    assert RunStages(MonoChainOrder[2..], a, y1, stage) == y4;
    assert MonoChainOrder[1..][1..] == MonoChainOrder[2..];
    assert RunStages(MonoChainOrder[1..], a, y0, stage) == y4;
  }

  /** Stages that keep the block length give a chain that keeps it. */
  lemma {:induction false} RunStagesKeepsLength(stages: seq<ChainPosition>, a: ActiveChain, x: seq<real>,
                                                 stage: (ActiveChain, ChainPosition, seq<real>) -> seq<real>)
    requires forall b, p, y :: |stage(b, p, y)| == |y|
    ensures |RunStages(stages, a, x, stage)| == |x|
    decreases |stages|
  {
    if |stages| > 0 {
      RunStagesKeepsLength(stages[1..], a, stage(a, stages[0], x), stage);
    }
  }

  /** A chain as the constructor leaves it: a default (silent) pre-gain, a new Distortion, a new noise-gate duplicator. */
  const InitialChain: MonoChain :=
    MonoChain(None, DistortionClass.ChainState(NewDuplicator, 50.0, Tanh(1.0), 0.0), NewDuplicator)

  /**
   * A chain after prepareToPlay: the noise-gate state assigned a 10 kHz
   * lowpass, the chain prepared (the distortion assigning and building its
   * highpass, then the noise gate building its lowpass), then the pre-gain.
   */
  function Prepared(m: MonoChain, sampleRate: real, preGain: real): (r: MonoChain)
    ensures Active(r).highPass == Some(if m.distortion.filter.running.None? then FirstOrderHighPass(sampleRate, 1000.0)
                                       else m.distortion.filter.running.value)
    ensures Active(r).lowPass == Some(if m.noiseGate.running.None? then FirstOrderLowPass(sampleRate, 10000.0)
                                      else m.noiseGate.running.value)
    ensures r.preGainDb == Some(preGain)
  {
    MonoChain(Some(preGain), DistortionClass.Prepared(m.distortion, sampleRate),
              PrepareDuplicator(AssignState(m.noiseGate, FirstOrderLowPass(sampleRate, 10000.0))))
  }

  /** Distortion::setParams of PluginProcessor.h on its processor chain. */
  function WithParams(st: DistortionClass.ChainState, s: ChainSettings, sampleRate: real): (r: DistortionClass.ChainState)
    ensures r.filter.state == FirstOrderHighPass(sampleRate, s.distortionClarity)
    ensures r.filter.running == st.filter.running
  {
    DistortionClass.ChainState(AssignState(st.filter, FirstOrderHighPass(sampleRate, s.distortionClarity)),
                               s.distortionPreGain, Tanh(s.distortionTone), s.distortionPostGain)
  }

  /**
   * A chain after processBlock has updated it from the settings. The
   * pre-gain, the distortion's gains and its shaper take the settings'
   * values; the clarity highpass and the noise-gate lowpass are only
   * recorded as new state objects, and the filters keep what they ran.
   */
  function Configured(m: MonoChain, s: ChainSettings, sampleRate: real): (r: MonoChain)
    ensures Active(r) == ActiveChain(Some(s.preGain), Active(m).highPass, s.distortionPreGain,
                                     Tanh(s.distortionTone), s.distortionPostGain, Active(m).lowPass)
    ensures r.distortion.filter.state == FirstOrderHighPass(sampleRate, s.distortionClarity)
    ensures r.noiseGate.state == FirstOrderLowPass(sampleRate, s.noiseGate)
  {
    MonoChain(Some(s.preGain), WithParams(m.distortion, s, sampleRate),
              AssignState(m.noiseGate, FirstOrderLowPass(sampleRate, s.noiseGate)))
  }

  /**
   * Only the pre-gain, the four distortion settings and the noise gate reach
   * the chain: settings that agree on those configure it alike.
   */
  lemma ConfiguredReadsSixFields(m: MonoChain, s: ChainSettings, t: ChainSettings, sampleRate: real)
    requires s.preGain == t.preGain && s.distortionTone == t.distortionTone
    requires s.distortionPreGain == t.distortionPreGain && s.distortionPostGain == t.distortionPostGain
    requires s.distortionClarity == t.distortionClarity && s.noiseGate == t.noiseGate
    ensures Configured(m, s, sampleRate) == Configured(m, t, sampleRate)
  {
  }

  /**
   * The tone and both gains take effect at once: after the update the
   * distortion computes postGain * tanh(tone * preGain * highpass(x)) with
   * the settings' values, where the highpass is still the one its filter was
   * built with; and it stays below the post-gain factor in magnitude.
   */
  lemma ConfiguredDistortion(m: MonoChain, s: ChainSettings, sampleRate: real, x: real, filt: (Coefs, real) -> real,
                             dbToGain: real -> real, tanh: real -> real)
    requires m.distortion.filter.running.Some?
    requires dbToGain(s.distortionPostGain) > 0.0
    requires forall y :: -1.0 < tanh(y) < 1.0
    ensures var d := Configured(m, s, sampleRate).distortion;
            && d.filter.running.Some?
            && DistortionClass.RunSlots(DistortionClass.ChainOrder, d, x, filt, dbToGain, tanh)
               == Gain(dbToGain(s.distortionPostGain), tanh(Gain(s.distortionTone,
                    Gain(dbToGain(s.distortionPreGain), filt(m.distortion.filter.running.value, x)))))
            && Abs(DistortionClass.RunSlots(DistortionClass.ChainOrder, d, x, filt, dbToGain, tanh))
               < dbToGain(s.distortionPostGain)
  {
    var d := Configured(m, s, sampleRate).distortion;
    DistortionClass.ChainComposition(d, x, filt, dbToGain, tanh);
    DistortionClass.OutputBelowPostGain(d, x, filt, dbToGain, tanh);
  }

  //==============================================================================
  // The filters over the processor's lifetime

  /** The host's calls on the processor, as far as a chain's state goes. */
  datatype HostCall =
    | PrepareToPlayCall(sampleRate: real, preGain: real)
    | ProcessBlockCall(settings: ChainSettings, blockSampleRate: real)

  /** The chain after the calls, each acting on what the ones before it left. */
  function Replay(m: MonoChain, calls: seq<HostCall>): MonoChain
    decreases |calls|
  {
    if |calls| == 0 then m
    else
      var before := Replay(m, calls[..|calls| - 1]);
      match calls[|calls| - 1]
      case PrepareToPlayCall(sampleRate, preGain) => Prepared(before, sampleRate, preGain)
      case ProcessBlockCall(settings, sampleRate) => Configured(before, settings, sampleRate)
  }

  /** Once both filters are built, no later call changes what they run. */
  lemma {:induction false} BuiltFiltersStay(m: MonoChain, calls: seq<HostCall>)
    requires m.distortion.filter.running.Some? && m.noiseGate.running.Some?
    ensures Active(Replay(m, calls)).highPass == m.distortion.filter.running
    ensures Active(Replay(m, calls)).lowPass == m.noiseGate.running
    decreases |calls|
  {
    if |calls| > 0 {
      BuiltFiltersStay(m, calls[..|calls| - 1]);
    }
  }

  /**
   * From construction on, the distortion's highpass runs at 1 kHz and the
   * noise gate's lowpass at 10 kHz, both at the first prepare's sample rate,
   * whatever distortionClarity, noiseGate and sample rates the later calls
   * bring.
   */
  lemma {:induction false} FiltersFixedAtFirstPrepare(sampleRate: real, preGain: real, calls: seq<HostCall>)
    ensures var m := Replay(Prepared(InitialChain, sampleRate, preGain), calls);
            && Active(m).highPass == Some(FirstOrderHighPass(sampleRate, 1000.0))
            && Active(m).lowPass == Some(FirstOrderLowPass(sampleRate, 10000.0))
  {
    BuiltFiltersStay(Prepared(InitialChain, sampleRate, preGain), calls);
  }

  /**
   * prepareToPlay with the state written in place (`*state = *...`), as the
   * clarity and noise-gate settings evidently intend.
   */
  function PreparedInPlace(m: MonoChain, sampleRate: real, preGain: real): (r: MonoChain)
    ensures r.distortion.filter.state == FirstOrderHighPass(sampleRate, 1000.0)
    ensures r.noiseGate.state == FirstOrderLowPass(sampleRate, 10000.0)
    ensures r.distortion.filter.running.Some? && r.noiseGate.running.Some?
  {
    MonoChain(Some(preGain),
              m.distortion.(filter := PrepareDuplicator(WriteState(m.distortion.filter, FirstOrderHighPass(sampleRate, 1000.0)))),
              PrepareDuplicator(WriteState(m.noiseGate, FirstOrderLowPass(sampleRate, 10000.0))))
  }

  /** processBlock's updates with the two states written in place. */
  function ConfiguredInPlace(m: MonoChain, s: ChainSettings, sampleRate: real): (r: MonoChain)
    ensures r.distortion.filter.state == FirstOrderHighPass(sampleRate, s.distortionClarity)
    ensures r.noiseGate.state == FirstOrderLowPass(sampleRate, s.noiseGate)
    ensures r.preGainDb == Some(s.preGain) && r.distortion.shaper == Tanh(s.distortionTone)
  {
    MonoChain(Some(s.preGain),
              DistortionClass.ChainState(WriteState(m.distortion.filter, FirstOrderHighPass(sampleRate, s.distortionClarity)),
                                         s.distortionPreGain, Tanh(s.distortionTone), s.distortionPostGain),
              WriteState(m.noiseGate, FirstOrderLowPass(sampleRate, s.noiseGate)))
  }

  function ReplayInPlace(m: MonoChain, calls: seq<HostCall>): MonoChain
    decreases |calls|
  {
    if |calls| == 0 then m
    else
      var before := ReplayInPlace(m, calls[..|calls| - 1]);
      match calls[|calls| - 1]
      case PrepareToPlayCall(sampleRate, preGain) => PreparedInPlace(before, sampleRate, preGain)
      case ProcessBlockCall(settings, sampleRate) => ConfiguredInPlace(before, settings, sampleRate)
  }

  /** Both filters built and sharing their states. */
  predicate FiltersShareState(m: MonoChain)
  {
    && m.distortion.filter.sharesState && m.distortion.filter.running == Some(m.distortion.filter.state)
    && m.noiseGate.sharesState && m.noiseGate.running == Some(m.noiseGate.state)
  }

  /** With in-place writes the filters keep sharing their states through every later call. */
  lemma {:induction false} InPlaceKeepsSharing(m: MonoChain, calls: seq<HostCall>)
    requires FiltersShareState(m)
    ensures FiltersShareState(ReplayInPlace(m, calls))
    decreases |calls|
  {
    if |calls| > 0 {
      InPlaceKeepsSharing(m, calls[..|calls| - 1]);
    }
  }

  /**
   * With in-place writes, after the first prepare the filters always run
   * the last coefficients given: after a processBlock, the clarity highpass
   * and the noise-gate lowpass of its settings and sample rate.
   */
  lemma {:induction false} InPlaceSettingsRun(sampleRate: real, preGain: real, calls: seq<HostCall>)
    ensures var m := ReplayInPlace(PreparedInPlace(InitialChain, sampleRate, preGain), calls);
            && Active(m).highPass == Some(m.distortion.filter.state)
            && Active(m).lowPass == Some(m.noiseGate.state)
    ensures |calls| > 0 && calls[|calls| - 1].ProcessBlockCall? ==>
              var m := ReplayInPlace(PreparedInPlace(InitialChain, sampleRate, preGain), calls);
              var last := calls[|calls| - 1];
              && Active(m).highPass == Some(FirstOrderHighPass(last.blockSampleRate, last.settings.distortionClarity))
              && Active(m).lowPass == Some(FirstOrderLowPass(last.blockSampleRate, last.settings.noiseGate))
  {
    InPlaceKeepsSharing(PreparedInPlace(InitialChain, sampleRate, preGain), calls);
  }

  /** Channel c after the clearing loop of processBlock: silenced when it is an output without an input. */
  function Silenced(x: seq<real>, c: nat, numInputs: nat, numOutputs: nat): (y: seq<real>)
    ensures |y| == |x|
    ensures numInputs <= c < numOutputs ==> forall i :: 0 <= i < |y| ==> y[i] == 0.0
    ensures !(numInputs <= c < numOutputs) ==> y == x
  {
    if numInputs <= c < numOutputs then seq(|x|, i => 0.0) else x
  }

  //==============================================================================
  // The stage classes

  /** Distortion<Type> of PluginProcessor.h: the tone is installed by setParams itself. */
  class Distortion {
    var processorChain: DistortionClass.ChainState

    /** tanh(x) in the waveshaper, 50 dB pre-gain, 0 dB post-gain; the filter is not built yet. */
    constructor ()
      ensures processorChain == InitialChain.distortion
    {
      processorChain := DistortionClass.ChainState(NewDuplicator, 50.0, Tanh(1.0), 0.0);
    }

    /** The state becomes a 1 kHz highpass at the spec's sample rate, and the chain is prepared. */
    method Prepare(specSampleRate: real)
      modifies this
      ensures processorChain == DistortionClass.Prepared(old(processorChain), specSampleRate)
    {
      processorChain := processorChain.(filter := AssignState(processorChain.filter, FirstOrderHighPass(specSampleRate, 1000.0)));
      processorChain := processorChain.(filter := PrepareDuplicator(processorChain.filter));
    }

    /**
     * Installs tanh(tone * x) and both gains, whatever was there before, and
     * assigns the clarity highpass as a new state object, which the built
     * filter does not run.
     */
    method SetParams(settings: ChainSettings, sampleRate: real)
      modifies this
      ensures processorChain == WithParams(old(processorChain), settings, sampleRate)
      ensures processorChain.filter.running == old(processorChain.filter.running)
    {
      processorChain := processorChain.(shaper := Tanh(settings.distortionTone));
      processorChain := processorChain.(preGainDb := settings.distortionPreGain);
      processorChain := processorChain.(postGainDb := settings.distortionPostGain);
      processorChain := processorChain.(filter := AssignState(processorChain.filter, FirstOrderHighPass(sampleRate, settings.distortionClarity)));
    }
  }

  /** Reverb<Type> of PluginProcessor.h: None until setParams hands the library reverb its parameters. */
  class Reverb {
    var parameters: Option<ReverbClass.ReverbParameters>

    constructor ()
      ensures parameters == None
    {
      parameters := None;
    }

    /** The same mapping as the reverb stage of modules/ReverbClass.h. */
    method SetParams(chainSettings: ChainSettings)
      modifies this
      ensures parameters == Some(ReverbClass.ReverbParams(chainSettings))
    {
      var newParams := ReverbClass.ReverbParameters(0.5, 0.5, 0.33, 0.4, 1.0, 0.0);
      newParams := newParams.(damping := 1.0 - chainSettings.reverbIntensity);
      newParams := newParams.(dryLevel := 1.0 - chainSettings.reverbWetMix);
      newParams := newParams.(wetLevel := chainSettings.reverbWetMix);
      newParams := newParams.(roomSize := chainSettings.reverbRoomSize);
      newParams := newParams.(width := chainSettings.reverbSpread);
      newParams := newParams.(freezeMode := if chainSettings.reverbShimmer then 1.0 else 0.0);
      parameters := Some(newParams);
    }
  }

  //==============================================================================
  // The processor

  /** buffer.clear(c, 0, numSamples) for every output channel c without an input channel. */
  method ClearExtraOutputs(buffer: array2<real>, totalNumInputChannels: nat, totalNumOutputChannels: nat)
    requires totalNumOutputChannels <= buffer.Length0
    modifies buffer
    ensures forall c, i :: 0 <= c < buffer.Length0 && 0 <= i < buffer.Length1 ==>
              buffer[c, i] == if totalNumInputChannels <= c < totalNumOutputChannels then 0.0 else old(buffer[c, i])
  {
    var c := totalNumInputChannels;
    while c < totalNumOutputChannels
      invariant totalNumInputChannels <= c
      invariant totalNumInputChannels <= totalNumOutputChannels ==> c <= totalNumOutputChannels
      invariant totalNumInputChannels > totalNumOutputChannels ==> c == totalNumInputChannels
      invariant forall d, i :: 0 <= d < buffer.Length0 && 0 <= i < buffer.Length1 ==>
                  buffer[d, i] == if totalNumInputChannels <= d < c then 0.0 else old(buffer[d, i])
    {
      var i := 0;
      while i < buffer.Length1
        invariant 0 <= i <= buffer.Length1
        invariant forall d, j :: 0 <= d < buffer.Length0 && 0 <= j < buffer.Length1 ==>
                    buffer[d, j] == if totalNumInputChannels <= d < c || (d == c && j < i) then 0.0 else old(buffer[d, j])
      {
        buffer[c, i] := 0.0;
        i := i + 1;
      }
      c := c + 1;
    }
  }

  /** A channel processed in place: its samples become y and the other channels are untouched. */
  method ReplaceChannel(buffer: array2<real>, c: nat, y: seq<real>)
    requires c < buffer.Length0 && |y| == buffer.Length1
    modifies buffer
    ensures RowIs(buffer, c, y)
    ensures forall d, i :: 0 <= d < buffer.Length0 && d != c && 0 <= i < buffer.Length1 ==> buffer[d, i] == old(buffer[d, i])
  {
    var i := 0;
    while i < buffer.Length1
      invariant 0 <= i <= buffer.Length1
      invariant forall j :: 0 <= j < i ==> buffer[c, j] == y[j]
      invariant forall d, j :: 0 <= d < buffer.Length0 && d != c && 0 <= j < buffer.Length1 ==> buffer[d, j] == old(buffer[d, j])
    {
      buffer[c, i] := y[i];
      i := i + 1;
    }
  }

  /** PixelDriveAudioProcessor: the left and right MonoChains and their reverbs. */
  class Processor {
    var leftPreGainDb: Option<real>
    var rightPreGainDb: Option<real>
    var leftDistortion: Distortion
    var rightDistortion: Distortion
    var leftReverb: Reverb
    var rightReverb: Reverb
    var leftNoiseGate: Duplicator
    var rightNoiseGate: Duplicator

    function LeftChain(): MonoChain
      reads this, leftDistortion
    {
      MonoChain(leftPreGainDb, leftDistortion.processorChain, leftNoiseGate)
    }

    function RightChain(): MonoChain
      reads this, rightDistortion
    {
      MonoChain(rightPreGainDb, rightDistortion.processorChain, rightNoiseGate)
    }

    /** Each chain owns its stages, and the two chains are always configured alike; no reverb is ever given parameters. */
    ghost predicate Valid()
      reads this, leftDistortion, rightDistortion, leftReverb, rightReverb
    {
      && leftDistortion != rightDistortion
      && LeftChain() == RightChain()
      && leftReverb.parameters == None && rightReverb.parameters == None
    }

    constructor ()
      ensures Valid() && fresh(leftDistortion) && fresh(rightDistortion)
      ensures LeftChain() == InitialChain
    {
      leftPreGainDb := None;
      rightPreGainDb := None;
      leftDistortion := new Distortion();
      rightDistortion := new Distortion();
      leftReverb := new Reverb();
      rightReverb := new Reverb();
      leftNoiseGate := NewDuplicator;
      rightNoiseGate := NewDuplicator;
    }

    /**
     * prepareToPlay: both noise-gate states assigned a 10 kHz lowpass, then
     * both chains prepared (each distortion assigning its 1 kHz highpass and
     * preparing its chain, then the noise gate), then the pre-gains from the
     * settings. Only the first call builds the filters.
     */
    method PrepareToPlay(sampleRate: real, samplesPerBlock: int, values: ParameterValues)
      requires Valid() && HasParameters(values)
      modifies this, leftDistortion, rightDistortion
      ensures Valid()
      ensures leftDistortion == old(leftDistortion) && rightDistortion == old(rightDistortion)
      ensures leftReverb == old(leftReverb) && rightReverb == old(rightReverb)
      ensures LeftChain() == Prepared(old(LeftChain()), sampleRate, GetChainSettings(values).preGain)
    {
      leftNoiseGate := AssignState(leftNoiseGate, FirstOrderLowPass(sampleRate, 10000.0));
      rightNoiseGate := AssignState(rightNoiseGate, FirstOrderLowPass(sampleRate, 10000.0));
      leftDistortion.Prepare(sampleRate);
      leftNoiseGate := PrepareDuplicator(leftNoiseGate);
      rightDistortion.Prepare(sampleRate);
      rightNoiseGate := PrepareDuplicator(rightNoiseGate);
      var chainSettings := GetChainSettings(values);
      leftPreGainDb := Some(chainSettings.preGain);
      rightPreGainDb := Some(chainSettings.preGain);
    }

    /**
     * processBlock: clears the outputs that have no input, runs the left
     * chain on channel 0 and the right chain on channel 1 with the chains
     * as they were, and only then configures both chains from the current
     * parameter values, so that new gains and tones apply from the next
     * block (the two filters never see their new states).
     */
    method ProcessBlock(buffer: array2<real>, totalNumInputChannels: nat, totalNumOutputChannels: nat,
                        values: ParameterValues, sampleRate: real,
                        stage: (ActiveChain, ChainPosition, seq<real>) -> seq<real>)
      requires Valid() && HasParameters(values)
      requires 2 <= buffer.Length0 && totalNumOutputChannels <= buffer.Length0
      requires forall a, p, x :: |stage(a, p, x)| == |x|
      modifies this, leftDistortion, rightDistortion, buffer
      ensures Valid()
      ensures leftDistortion == old(leftDistortion) && rightDistortion == old(rightDistortion)
      ensures leftReverb == old(leftReverb) && rightReverb == old(rightReverb)
      ensures RowIs(buffer, 0, RunStages(MonoChainOrder, Active(old(LeftChain())),
                                         Silenced(old(Row(buffer, 0)), 0, totalNumInputChannels, totalNumOutputChannels), stage))
      ensures RowIs(buffer, 1, RunStages(MonoChainOrder, Active(old(RightChain())),
                                         Silenced(old(Row(buffer, 1)), 1, totalNumInputChannels, totalNumOutputChannels), stage))
      ensures forall c, i :: 2 <= c < buffer.Length0 && 0 <= i < buffer.Length1 ==>
                buffer[c, i] == if totalNumInputChannels <= c < totalNumOutputChannels then 0.0 else old(buffer[c, i])
      ensures LeftChain() == Configured(old(LeftChain()), GetChainSettings(values), sampleRate)
    {
      ghost var x0 := Silenced(Row(buffer, 0), 0, totalNumInputChannels, totalNumOutputChannels);
      ghost var x1 := Silenced(Row(buffer, 1), 1, totalNumInputChannels, totalNumOutputChannels);
      ClearExtraOutputs(buffer, totalNumInputChannels, totalNumOutputChannels);
      assert Row(buffer, 0) == x0 && Row(buffer, 1) == x1;
      ProcessChains(buffer, stage);
      UpdateChains(values, sampleRate);
    }

    /** leftChain.process on channel 0, then rightChain.process on channel 1. */
    method ProcessChains(buffer: array2<real>, stage: (ActiveChain, ChainPosition, seq<real>) -> seq<real>)
      requires 2 <= buffer.Length0
      requires forall a, p, x :: |stage(a, p, x)| == |x|
      modifies buffer
      ensures RowIs(buffer, 0, RunStages(MonoChainOrder, Active(LeftChain()), old(Row(buffer, 0)), stage))
      ensures RowIs(buffer, 1, RunStages(MonoChainOrder, Active(RightChain()), old(Row(buffer, 1)), stage))
      ensures forall c, i :: 2 <= c < buffer.Length0 && 0 <= i < buffer.Length1 ==> buffer[c, i] == old(buffer[c, i])
    {
      var left := RunStages(MonoChainOrder, Active(LeftChain()), Row(buffer, 0), stage);
      RunStagesKeepsLength(MonoChainOrder, Active(LeftChain()), Row(buffer, 0), stage);
      ghost var x1 := Row(buffer, 1);
      ReplaceChannel(buffer, 0, left);
      assert Row(buffer, 1) == x1;
      var right := RunStages(MonoChainOrder, Active(RightChain()), Row(buffer, 1), stage);
      RunStagesKeepsLength(MonoChainOrder, Active(RightChain()), Row(buffer, 1), stage);
      ReplaceChannel(buffer, 1, right);
    }

    /** The parameter updates at the end of processBlock: both chains from the same settings. */
    method UpdateChains(values: ParameterValues, sampleRate: real)
      requires Valid() && HasParameters(values)
      modifies this, leftDistortion, rightDistortion
      ensures Valid()
      ensures leftDistortion == old(leftDistortion) && rightDistortion == old(rightDistortion)
      ensures leftReverb == old(leftReverb) && rightReverb == old(rightReverb)
      ensures LeftChain() == Configured(old(LeftChain()), GetChainSettings(values), sampleRate)
    {
      var chainSettings := GetChainSettings(values);
      leftPreGainDb := Some(chainSettings.preGain);
      rightPreGainDb := Some(chainSettings.preGain);
      leftDistortion.SetParams(chainSettings, sampleRate);
      rightDistortion.SetParams(chainSettings, sampleRate);
      leftNoiseGate := AssignState(leftNoiseGate, FirstOrderLowPass(sampleRate, chainSettings.noiseGate));
      rightNoiseGate := AssignState(rightNoiseGate, FirstOrderLowPass(sampleRate, chainSettings.noiseGate));
    }
  }
}

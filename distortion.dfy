/**
 * The distortion stage with a deferred tone change (modules/DistortionClass.h).
 *
 * Its processor chain is a highpass filter, a pre-gain, a waveshaper and a
 * post-gain, in that order. setParams does not touch the waveshaper: a new
 * tone is remembered in lastToneValue and a pending transfer function, and
 * updateWaveShaper installs it later.
 *
 * The chain's per-sample arithmetic is described on values. The filter's
 * response is the parameter `filt` (coefficients, input) -> output, the dB to
 * linear conversion of juce::dsp::Gain is `dbToGain`, and tanh is `tanh`.
 *
 * The filter slot is a ProcessorDuplicator. prepare assigns its state before
 * the first processorChain.prepare builds the filter, so the filter runs the
 * 1 kHz highpass of the first prepare; setParams assigns a new state object,
 * which that filter never sees.
 */
module DistortionClass {
  import opened Dsp
  import opened ChainSettings

  //==============================================================================
  // The processor chain

  /** The chain's slots: the enum filterIndex, preGainIndex, waveshaperIndex, postGainIndex. */
  datatype ChainSlot = FilterSlot | PreGainSlot | WaveShaperSlot | PostGainSlot

  /** The order in which ProcessorChain runs its slots on every sample. */
  const ChainOrder: seq<ChainSlot> := [FilterSlot, PreGainSlot, WaveShaperSlot, PostGainSlot]

  /** The enum value of a slot: its position in the processor chain's template argument list. */
  function SlotIndex(s: ChainSlot): (i: nat)
    ensures i < |ChainOrder| && ChainOrder[i] == s
  {
    match s
    case FilterSlot => 0
    case PreGainSlot => 1
    case WaveShaperSlot => 2
    case PostGainSlot => 3
  }

  /** What the chain's slots hold: the filter's duplicator, the two gains in dB, and the installed shaper. */
  datatype ChainState = ChainState(filter: Duplicator, preGainDb: real, shaper: Shaper, postGainDb: real)

  /**
   * One slot applied to one sample. The filter slot filters with the
   * coefficients its filter was built with; processing before it is built is
   * outside the library's contract.
   */
  function ApplySlot(s: ChainSlot, st: ChainState, x: real, filt: (Coefs, real) -> real,
                     dbToGain: real -> real, tanh: real -> real): real
    requires st.shaper.Tanh? && st.filter.running.Some?
  {
    match s
    case FilterSlot => filt(st.filter.running.value, x)
    case PreGainSlot => Gain(dbToGain(st.preGainDb), x)
    case WaveShaperSlot => Shape(st.shaper, tanh, x)
    case PostGainSlot => Gain(dbToGain(st.postGainDb), x)
  }

  /** ProcessorChain::process on one sample: each slot in turn, the output of one feeding the next. */
  function RunSlots(slots: seq<ChainSlot>, st: ChainState, x: real, filt: (Coefs, real) -> real,
                    dbToGain: real -> real, tanh: real -> real): real
    requires st.shaper.Tanh? && st.filter.running.Some?
    decreases |slots|
  {
    if |slots| == 0 then x
    else RunSlots(slots[1..], st, ApplySlot(slots[0], st, x, filt, dbToGain, tanh), filt, dbToGain, tanh)
  }

  /**
   * The chain computes postGain * tanh(tone * preGain * highpass(x)), where
   * the highpass is the one the filter was built with, not the state last
   * assigned.
   */
  lemma ChainComposition(st: ChainState, x: real, filt: (Coefs, real) -> real, dbToGain: real -> real, tanh: real -> real)
    requires st.shaper.Tanh? && st.filter.running.Some?
    ensures RunSlots(ChainOrder, st, x, filt, dbToGain, tanh)
            == Gain(dbToGain(st.postGainDb), tanh(Gain(st.shaper.tone, Gain(dbToGain(st.preGainDb), filt(st.filter.running.value, x)))))
  {
    var y0 := filt(st.filter.running.value, x);
    var y1 := Gain(dbToGain(st.preGainDb), y0);
    var y2 := Shape(st.shaper, tanh, y1);
    var y3 := Gain(dbToGain(st.postGainDb), y2);
    assert ChainOrder[3..][1..] == [];
    assert RunSlots(ChainOrder[3..], st, y2, filt, dbToGain, tanh) == y3;
    assert ChainOrder[2..][1..] == ChainOrder[3..];
    assert RunSlots(ChainOrder[2..], st, y1, filt, dbToGain, tanh) == y3;
    assert ChainOrder[1..][1..] == ChainOrder[2..];
    assert RunSlots(ChainOrder[1..], st, y0, filt, dbToGain, tanh) == y3;
    assert ApplySlot(ChainOrder[0], st, x, filt, dbToGain, tanh) == y0;
  }

  /**
   * With a tanh bounded by 1 and a positive post-gain factor, the stage's
   * output stays strictly inside (-postGain, postGain).
   */
  lemma OutputBelowPostGain(st: ChainState, x: real, filt: (Coefs, real) -> real, dbToGain: real -> real, tanh: real -> real)
    requires st.shaper.Tanh? && st.filter.running.Some? && dbToGain(st.postGainDb) > 0.0
    requires forall y :: -1.0 < tanh(y) < 1.0
    ensures Abs(RunSlots(ChainOrder, st, x, filt, dbToGain, tanh)) < dbToGain(st.postGainDb)
  {
    ChainComposition(st, x, filt, dbToGain, tanh);
    var g := dbToGain(st.postGainDb);
    var t := tanh(Gain(st.shaper.tone, Gain(dbToGain(st.preGainDb), filt(st.filter.running.value, x))));
    assert -1.0 < t < 1.0;
    assert g * t < g && -g < g * t by {
      assert g * (1.0 - t) > 0.0;
      assert g * (1.0 + t) > 0.0;
    }
  }

  /**
   * prepare: the filter state becomes a 1 kHz highpass at the spec's sample
   * rate, then the chain is prepared. The first prepare builds the filter on
   * that highpass; a later one leaves the built filter as it is.
   */
  function Prepared(st: ChainState, specSampleRate: real): (r: ChainState)
    ensures r.filter.state == FirstOrderHighPass(specSampleRate, 1000.0) && r.filter.running.Some?
    ensures st.filter.running.None? ==> r.filter.running == Some(FirstOrderHighPass(specSampleRate, 1000.0))
    ensures st.filter.running.Some? ==> r.filter.running == st.filter.running
    ensures r.preGainDb == st.preGainDb && r.shaper == st.shaper && r.postGainDb == st.postGainDb
  {
    st.(filter := PrepareDuplicator(AssignState(st.filter, FirstOrderHighPass(specSampleRate, 1000.0))))
  }

  /**
   * From construction on, whatever prepares and clarity assignments follow
   * the first prepare, the filter runs the highpass of that first prepare.
   */
  lemma {:induction false} FilterFixedAtFirstPrepare(d: Duplicator, specSampleRate: real, later: seq<DuplicatorCall>)
    requires d.running.None?
    requires forall i :: 0 <= i < |later| ==> !later[i].Write?
    ensures Calls(d, [Assign(FirstOrderHighPass(specSampleRate, 1000.0)), Prepare] + later).running
            == Some(FirstOrderHighPass(specSampleRate, 1000.0))
  {
    var first := [Assign(FirstOrderHighPass(specSampleRate, 1000.0)), Prepare];
    assert Calls(d, first) == PrepareDuplicator(AssignState(d, FirstOrderHighPass(specSampleRate, 1000.0))) by {
      assert first[..1][..0] == [];
      assert Calls(d, first[..1]) == AssignState(d, FirstOrderHighPass(specSampleRate, 1000.0));
    }
    var all := first + later;
    assert forall i :: 0 <= i < |all| ==> (i < 2 ==> all[i] == first[i]) && (i >= 2 ==> all[i] == later[i - 2]);
    CallsAppend(d, first, later);
    AssignmentsNeverReachFilter(Calls(d, first), later);
  }

  //==============================================================================
  // The tone-change cache

  /** The fields behind the deferred tone change, with the shaper the chain currently runs. */
  datatype ToneCache = ToneCache(lastToneValue: real, toneChanged: bool, pending: Shaper, installed: Shaper)

  /** A freshly constructed stage: tone 1, nothing pending, tanh(x) installed. */
  const InitialCache: ToneCache := ToneCache(1.0, false, Empty, Tanh(1.0))

  /**
   * Without a pending change the installed shaper runs at lastToneValue; with
   * one, the pending shaper does.
   */
  ghost predicate Consistent(c: ToneCache)
  {
    && c.installed.Tanh?
    && (!c.toneChanged ==> c.installed == Tanh(c.lastToneValue))
    && (c.toneChanged ==> c.pending == Tanh(c.lastToneValue))
  }

  /** The tone part of setParams: a new tone becomes pending; the installed shaper is untouched. */
  function NoteTone(c: ToneCache, tone: real): (r: ToneCache)
    ensures r.installed == c.installed
  {
    if c.lastToneValue != tone then ToneCache(tone, true, Tanh(tone), c.installed) else c
  }

  /** updateWaveShaper: installs the pending shaper when a change is flagged, and clears the flag. */
  function Install(c: ToneCache): (r: ToneCache)
    ensures !r.toneChanged && r.lastToneValue == c.lastToneValue && r.pending == c.pending
  {
    if c.toneChanged then c.(installed := c.pending, toneChanged := false) else c
  }

  lemma InitialIsConsistent()
    ensures Consistent(InitialCache) && InitialCache.installed == Tanh(1.0) && !InitialCache.toneChanged
  {
  }

  /** A changed tone raises the flag and becomes pending; the same tone leaves the cache as it was. */
  lemma NoteToneEffect(c: ToneCache, tone: real)
    ensures tone != c.lastToneValue ==>
              NoteTone(c, tone).toneChanged && NoteTone(c, tone).pending == Tanh(tone)
              && NoteTone(c, tone).lastToneValue == tone
    ensures tone == c.lastToneValue ==> NoteTone(c, tone) == c
  {
  }

  lemma NoteToneKeepsConsistent(c: ToneCache, tone: real)
    requires Consistent(c)
    ensures Consistent(NoteTone(c, tone))
  {
  }

  lemma InstallKeepsConsistent(c: ToneCache)
    requires Consistent(c)
    ensures Consistent(Install(c)) && Install(c).installed == Tanh(c.lastToneValue)
  {
  }

  /** A second updateWaveShaper changes nothing. */
  lemma InstallIdempotent(c: ToneCache)
    ensures Install(Install(c)) == Install(c)
  {
  }

  /** setParams followed by updateWaveShaper leaves the waveshaper at the settings' tone. */
  lemma NoteThenInstall(c: ToneCache, tone: real)
    requires Consistent(c)
    ensures Install(NoteTone(c, tone)).installed == Tanh(tone)
  {
    NoteToneKeepsConsistent(c, tone);
    InstallKeepsConsistent(NoteTone(c, tone));
  }

  /** Any sequence of settings changes keeps the cache consistent. */
  lemma {:induction false} TonesKeepConsistent(c: ToneCache, tones: seq<real>)
    requires Consistent(c)
    ensures Consistent(NoteTones(c, tones))
    decreases |tones|
  {
    if |tones| > 0 {
      NoteToneKeepsConsistent(c, tones[0]);
      TonesKeepConsistent(NoteTone(c, tones[0]), tones[1..]);
    }
  }

  /** setParams called once per tone, in order, with no updateWaveShaper in between. */
  function NoteTones(c: ToneCache, tones: seq<real>): (r: ToneCache)
    ensures r.installed == c.installed
    decreases |tones|
  {
    if |tones| == 0 then c else NoteTones(NoteTone(c, tones[0]), tones[1..])
  }

  //==============================================================================

  /** Distortion<Type>: the processor chain and the tone-change fields. */
  class Distortion {
    var lastToneValue: real
    var toneChanged: bool
    var waveShaperLambda: Shaper
    var chain: ChainState

    function Cache(): ToneCache
      reads this
    {
      ToneCache(lastToneValue, toneChanged, waveShaperLambda, chain.shaper)
    }

    ghost predicate Valid()
      reads this
    {
      Consistent(Cache())
    }

    /** tanh(x) in the waveshaper, 50 dB pre-gain, 0 dB post-gain; the filter is not built yet. */
    constructor ()
      ensures Valid() && Cache() == InitialCache
      ensures chain == ChainState(NewDuplicator, 50.0, Tanh(1.0), 0.0)
    {
      lastToneValue := 1.0;
      toneChanged := false;
      waveShaperLambda := Empty;
      chain := ChainState(NewDuplicator, 50.0, Tanh(1.0), 0.0);
    }

    /** The state becomes a 1 kHz highpass at the spec's sample rate, and the chain is prepared. */
    method Prepare(specSampleRate: real)
      requires Valid()
      modifies this`chain
      ensures Valid()
      ensures chain == Prepared(old(chain), specSampleRate)
    {
      chain := chain.(filter := AssignState(chain.filter, FirstOrderHighPass(specSampleRate, 1000.0)));
      chain := chain.(filter := PrepareDuplicator(chain.filter));
    }

    /**
     * Notes the tone, and always overwrites both gains from the settings. The
     * clarity highpass is assigned as a new state object: the filter keeps
     * running what it was built with.
     */
    method SetParams(settings: ChainSettings, sampleRate: real)
      requires Valid()
      modifies this
      ensures Valid()
      ensures Cache() == NoteTone(old(Cache()), settings.distortionTone)
      ensures chain == ChainState(AssignState(old(chain.filter), FirstOrderHighPass(sampleRate, settings.distortionClarity)),
                                  settings.distortionPreGain, old(chain.shaper), settings.distortionPostGain)
      ensures chain.filter.running == old(chain.filter.running)
    {
      var toneValue := settings.distortionTone;
      if lastToneValue != toneValue {
        toneChanged := true;
        waveShaperLambda := Tanh(toneValue);
        lastToneValue := toneValue;
      }
      chain := chain.(preGainDb := settings.distortionPreGain);
      chain := chain.(postGainDb := settings.distortionPostGain);
      chain := chain.(filter := AssignState(chain.filter, FirstOrderHighPass(sampleRate, settings.distortionClarity)));
      NoteToneKeepsConsistent(old(Cache()), toneValue);
    }

    /** Installs the pending shaper if the tone changed since the last call. */
    method UpdateWaveShaper()
      requires Valid()
      modifies this
      ensures Valid()
      ensures Cache() == Install(old(Cache()))
      ensures chain == old(chain).(shaper := Install(old(Cache())).installed)
    {
      if toneChanged {
        chain := chain.(shaper := waveShaperLambda);
        toneChanged := false;
      }
    }
  }
}

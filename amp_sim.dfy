/**
 * The amp simulator's tone stack (modules/AmpSimClass.h): how the bass, mid
 * and treble knobs (0 to 10) become the cutoff and gain arguments of the
 * coefficient builders, and the coefficients, gain and bypass flags that
 * prepare and setParams store in the processor chain.
 *
 * The mappings are juce::jmap with the source's range constants and no
 * clamping, so knob values outside [0, 10] extrapolate.
 */
module AmpSimClass {
  import opened Dsp
  import opened ChainSettings

  const InputRangeMin: real := 0.0
  const InputRangeMax: real := 10.0
  const LowCutFreqMin: real := 1.0
  const LowCutFreqMax: real := 65.0
  const MidGainMax: real := -9.0
  const MidGainMin: real := -20.0
  const ShelfFilterCutoffFrequency: real := 1000.0
  const ShelfFilterQValue: real := 0.7
  const HighShelfGainFactorMin: real := 0.1
  const HighShelfGainFactorMax: real := 1.0
  const LowShelfGainDenominatorMin: real := 1.0
  const LowShelfGainDenominatorMax: real := 10.0
  const LowShelfGainNumeratorMin: real := 0.9
  const LowShelfGainNumeratorMax: real := 1.0
  /** updatePeakFilter's fixed centre frequency and Q. */
  const PeakFreq: real := 1550.0
  const PeakQ: real := 0.1

  /** A knob on its nominal [0, 10] range. */
  predicate OnKnob(v: real)
  {
    InputRangeMin <= v <= InputRangeMax
  }

  /** Low-cut frequency from the bass knob: 65 Hz at 0 falling to 1 Hz at 10. */
  function LowCutFreq(lowEnd: real): real
  {
    Jmap(lowEnd, InputRangeMin, InputRangeMax, LowCutFreqMax, LowCutFreqMin)
  }

  /** High-shelf gain factor from the treble knob: 0.1 at 0 rising to 1 at 10. */
  function HighShelfGain(highEnd: real): real
  {
    Jmap(highEnd, InputRangeMin, InputRangeMax, HighShelfGainFactorMin, HighShelfGainFactorMax)
  }

  /** The low-shelf gain's denominator from the bass knob: 10 at 0 falling to 1 at 10. */
  function LowShelfDenominator(lowEnd: real): real
  {
    Jmap(lowEnd, InputRangeMin, InputRangeMax, LowShelfGainDenominatorMax, LowShelfGainDenominatorMin)
  }

  /** The low-shelf gain's numerator from the treble knob: 1 at 0 falling to 0.9 at 10. */
  function LowShelfNumerator(highEnd: real): real
  {
    Jmap(highEnd, InputRangeMin, InputRangeMax, LowShelfGainNumeratorMax, LowShelfGainNumeratorMin)
  }

  /** Mid peak gain in dB from the mids knob: -20 dB at 0 rising to -9 dB at 10. */
  function MidGain(mids: real): real
  {
    Jmap(mids, InputRangeMin, InputRangeMax, MidGainMin, MidGainMax)
  }

  /** updatePeakFilter: a peak filter at 1550 Hz, Q 0.1, with the given gain in dB. */
  function PeakFilterCoefs(sampleRate: real, peakGainInDecibels: real): (c: Coefs)
    ensures c.Peak? && c.frequency == PeakFreq && c.q == PeakQ && c.gainDecibels == peakGainInDecibels
    ensures c.sampleRate == sampleRate
  {
    Peak(sampleRate, PeakFreq, PeakQ, peakGainInDecibels)
  }

  /** The low shelf's builder call; a zero denominator (bass knob at 100/9) gives non-finite coefficients. */
  function LowShelfCoefs(sampleRate: real, lowEnd: real, highEnd: real): (c: Coefs)
    ensures LowShelfDenominator(lowEnd) == 0.0 <==> c == NonFinite
    ensures LowShelfDenominator(lowEnd) != 0.0 ==>
              c == LowShelf(sampleRate, ShelfFilterCutoffFrequency, ShelfFilterQValue,
                            LowShelfNumerator(highEnd) / LowShelfDenominator(lowEnd))
  {
    var d := LowShelfDenominator(lowEnd);
    if d == 0.0 then NonFinite
    else LowShelf(sampleRate, ShelfFilterCutoffFrequency, ShelfFilterQValue, LowShelfNumerator(highEnd) / d)
  }

  //==============================================================================
  // The mappings at the knob ends, their direction and their ranges

  lemma LowCutRange(u: real, v: real)
    ensures LowCutFreq(0.0) == 65.0 && LowCutFreq(10.0) == 1.0
    ensures u < v ==> LowCutFreq(u) > LowCutFreq(v)
  {
    JmapEndpoints(InputRangeMin, InputRangeMax, LowCutFreqMax, LowCutFreqMin);
    if u < v {
      JmapMonotone(u, v, InputRangeMin, InputRangeMax, LowCutFreqMax, LowCutFreqMin);
    }
  }

  lemma HighShelfGainRange(u: real, v: real)
    ensures HighShelfGain(0.0) == 0.1 && HighShelfGain(10.0) == 1.0
    ensures u < v ==> HighShelfGain(u) < HighShelfGain(v)
    ensures OnKnob(v) ==> 0.1 <= HighShelfGain(v) <= 1.0
  {
    JmapEndpoints(InputRangeMin, InputRangeMax, HighShelfGainFactorMin, HighShelfGainFactorMax);
    if u < v {
      JmapMonotone(u, v, InputRangeMin, InputRangeMax, HighShelfGainFactorMin, HighShelfGainFactorMax);
    }
    if OnKnob(v) {
      JmapWithin(v, InputRangeMin, InputRangeMax, HighShelfGainFactorMin, HighShelfGainFactorMax);
    }
  }

  /** On the knob range the denominator lies in [1, 10], so the low shelf's division is defined. */
  lemma LowShelfDenominatorRange(v: real)
    ensures LowShelfDenominator(0.0) == 10.0 && LowShelfDenominator(10.0) == 1.0
    ensures OnKnob(v) ==> 1.0 <= LowShelfDenominator(v) <= 10.0
  {
    JmapEndpoints(InputRangeMin, InputRangeMax, LowShelfGainDenominatorMax, LowShelfGainDenominatorMin);
    if OnKnob(v) {
      JmapWithin(v, InputRangeMin, InputRangeMax, LowShelfGainDenominatorMax, LowShelfGainDenominatorMin);
    }
  }

  lemma LowShelfNumeratorRange(v: real)
    ensures LowShelfNumerator(0.0) == 1.0 && LowShelfNumerator(10.0) == 0.9
    ensures OnKnob(v) ==> 0.9 <= LowShelfNumerator(v) <= 1.0
  {
    JmapEndpoints(InputRangeMin, InputRangeMax, LowShelfGainNumeratorMax, LowShelfGainNumeratorMin);
    if OnKnob(v) {
      JmapWithin(v, InputRangeMin, InputRangeMax, LowShelfGainNumeratorMax, LowShelfGainNumeratorMin);
    }
  }

  /** With both knobs on their range, the low shelf gets a finite gain factor in [0.09, 1]. */
  lemma LowShelfGainRange(sampleRate: real, lowEnd: real, highEnd: real)
    requires OnKnob(lowEnd) && OnKnob(highEnd)
    ensures LowShelfCoefs(sampleRate, lowEnd, highEnd).LowShelf?
    ensures 0.09 <= LowShelfCoefs(sampleRate, lowEnd, highEnd).gainFactor <= 1.0
  {
    LowShelfDenominatorRange(lowEnd);
    LowShelfNumeratorRange(highEnd);
    var n, d := LowShelfNumerator(highEnd), LowShelfDenominator(lowEnd);
    QuotientWithin(n, d);
  }

  lemma QuotientWithin(n: real, d: real)
    requires 0.9 <= n <= 1.0 && 1.0 <= d <= 10.0
    ensures 0.09 <= n / d <= 1.0
  {
    var q := n / d;
    assert q * d == n;
    DivWithinUnit(n, d);
    DivAtLeast(n, d, 0.09);
  }

  lemma DivAtLeast(n: real, d: real, k: real)
    requires d > 0.0 && n >= k * d
    ensures n / d >= k
  {
  }

  /** The mid band is always cut: -20 dB at 0, -9 dB at 10, negative all along the knob. */
  lemma MidGainRange(v: real)
    ensures MidGain(0.0) == -20.0 && MidGain(10.0) == -9.0
    ensures OnKnob(v) ==> -20.0 <= MidGain(v) <= -9.0 < 0.0
  {
    JmapEndpoints(InputRangeMin, InputRangeMax, MidGainMin, MidGainMax);
    if OnKnob(v) {
      JmapWithin(v, InputRangeMin, InputRangeMax, MidGainMin, MidGainMax);
    }
  }

  /**
   * No clamping: the ChainSettings default treble of 20000 extrapolates to a
   * negative low-shelf numerator and a high-shelf gain far above 1.
   */
  lemma DefaultTrebleExtrapolates()
    ensures LowShelfNumerator(Defaults.ampHighEnd) == -199.0
    ensures HighShelfGain(Defaults.ampHighEnd) == 1800.1
    ensures LowShelfCoefs(44100.0, Defaults.ampLowEnd, Defaults.ampHighEnd).gainFactor == -19.9
  {
  }

  //==============================================================================

  /** AmpSimulator<Type>: what its processor chain's slots hold. */
  class AmpSimulator {
    /** The input gain in dB; None until prepare sets one (juce::dsp::Gain's own default). */
    var inputGainDb: Option<real>
    var lowCut: Coefs
    var midFilter: Coefs
    var highShelf: Coefs
    var lowShelf: Coefs
    /** The bypass flags of the low-cut, mid, high-shelf and low-shelf slots. */
    var lowCutBypassed: bool
    var midFilterBypassed: bool
    var highShelfBypassed: bool
    var lowShelfBypassed: bool
    var waveShaper: Shaper

    predicate AnyFilterBypassed()
      reads this
    {
      lowCutBypassed || midFilterBypassed || highShelfBypassed || lowShelfBypassed
    }

    constructor ()
      ensures inputGainDb == None && !AnyFilterBypassed() && waveShaper == Empty
      ensures lowCut == Default && midFilter == Default && highShelf == Default && lowShelf == Default
    {
      inputGainDb := None;
      lowCut, midFilter, highShelf, lowShelf := Default, Default, Default, Default;
      lowCutBypassed, midFilterBypassed, highShelfBypassed, lowShelfBypassed := false, false, false, false;
      waveShaper := Empty;
    }

    /** 1 dB input gain, all four filters active, tanh(x) in the waveshaper. */
    method Prepare(specSampleRate: real)
      modifies this
      ensures inputGainDb == Some(1.0) && !AnyFilterBypassed() && waveShaper == Tanh(1.0)
      ensures lowCut == old(lowCut) && midFilter == old(midFilter)
      ensures highShelf == old(highShelf) && lowShelf == old(lowShelf)
    {
      inputGainDb := Some(1.0);
      lowCutBypassed := false;
      midFilterBypassed := false;
      highShelfBypassed := false;
      lowShelfBypassed := false;
      waveShaper := Tanh(1.0);
    }

    /** The tone-stack knobs and the input gain from the settings snapshot. */
    method SetParams(settings: ChainSettings, sampleRate: real)
      modifies this
      ensures lowCut == FirstOrderHighPass(sampleRate, LowCutFreq(settings.ampLowEnd))
      ensures highShelf == HighShelf(sampleRate, ShelfFilterCutoffFrequency, ShelfFilterQValue, HighShelfGain(settings.ampHighEnd))
      ensures lowShelf == LowShelfCoefs(sampleRate, settings.ampLowEnd, settings.ampHighEnd)
      ensures midFilter == PeakFilterCoefs(sampleRate, MidGain(settings.ampMids))
      ensures inputGainDb == Some(settings.ampInputGain)
      ensures lowCutBypassed == old(lowCutBypassed) && midFilterBypassed == old(midFilterBypassed)
      ensures highShelfBypassed == old(highShelfBypassed) && lowShelfBypassed == old(lowShelfBypassed)
      ensures waveShaper == old(waveShaper)
    {
      lowCut := FirstOrderHighPass(sampleRate, LowCutFreq(settings.ampLowEnd));
      highShelf := HighShelf(sampleRate, ShelfFilterCutoffFrequency, ShelfFilterQValue, HighShelfGain(settings.ampHighEnd));
      lowShelf := LowShelfCoefs(sampleRate, settings.ampLowEnd, settings.ampHighEnd);
      midFilter := PeakFilterCoefs(sampleRate, MidGain(settings.ampMids));
      inputGainDb := Some(settings.ampInputGain);
    }
  }
}

/**
 * The delay stage (modules/DelayClass.h): a fixed-size circular sample
 * buffer per channel, and the feedback delay built on it.
 *
 * A line's abstract value is its History: History[k] is what get(k)
 * returns, so History[0] is the most recently pushed sample and the last
 * element is the least recently pushed one, the slot the next push
 * overwrites.
 *
 * The feedback-path highpass filter is a first-order IIR section: its
 * coefficients are recorded in `filterCoefs`, its one state variable per
 * channel in `filterState`, and the arithmetic of one filtered sample is the
 * parameter `step` (coefficients, state, input) -> (output, new state). The
 * saturating nonlinearity is the parameter `tanh`.
 */
module DelayClass {
  import opened Dsp
  import opened ChainSettings

  /** MAX_DELAY_TIME, in seconds. */
  const MaxDelayTime: real := 2.0
  /** The template argument maxNumChannels's default. */
  const MaxNumChannels: nat := 2

  /** The filter arithmetic of one sample: (coefficients, state, input) -> (output, new state). */
  type FilterStep = (Coefs, real, real) -> (real, real)

  //==============================================================================
  // The ring's index arithmetic and its abstract view

  /** The raw slot that get(k) reads: (leastRecentIndex + 1 + k) % size, written without %. */
  function Slot(leastRecent: nat, k: nat, n: nat): (i: nat)
    requires leastRecent < n && k < n
    ensures i < n
  {
    if leastRecent + 1 + k < n then leastRecent + 1 + k else leastRecent + 1 + k - n
  }

  /** Slot is the source's (leastRecentIndex + 1 + k) % size. */
  lemma SlotIsModulo(leastRecent: nat, k: nat, n: nat)
    requires leastRecent < n && k < n
    ensures Slot(leastRecent, k, n) == (leastRecent + 1 + k) % n
  {
  }

  /** The samples of a ring with raw storage `data`, from the most recent (offset 0) to the oldest. */
  function HistoryOf(data: seq<real>, leastRecent: nat): (h: seq<real>)
    requires |data| == 0 || leastRecent < |data|
    ensures |h| == |data|
  {
    seq(|data|, k requires 0 <= k < |data| => data[Slot(leastRecent, k, |data|)])
  }

  /** The history after one push: v is the newest sample, the oldest one is gone. */
  function Pushed(h: seq<real>, v: real): (r: seq<real>)
    requires |h| > 0
    ensures |r| == |h| && r[0] == v
    ensures forall k :: 1 <= k < |h| ==> r[k] == h[k - 1]
  {
    [v] + h[..|h| - 1]
  }

  /** std::vector::resize: keeps the first min(|data|, n) samples and zero-fills the rest. */
  function Resized(data: seq<real>, n: nat): (r: seq<real>)
    ensures |r| == n
    ensures forall i :: 0 <= i < n ==> r[i] == (if i < |data| then data[i] else 0.0)
  {
    seq(n, i requires 0 <= i < n => if i < |data| then data[i] else 0.0)
  }

  /** The index after a push: leastRecentIndex moves one slot down, wrapping from 0 to size - 1. */
  function Retreat(leastRecent: nat, n: nat): nat
    requires leastRecent < n
  {
    if leastRecent == 0 then n - 1 else leastRecent - 1
  }

  /** Writing the least recent slot and retreating the index is exactly a push of the abstract history. */
  lemma PushHistory(data: seq<real>, leastRecent: nat, v: real)
    requires leastRecent < |data|
    ensures HistoryOf(data[leastRecent := v], Retreat(leastRecent, |data|)) == Pushed(HistoryOf(data, leastRecent), v)
  {
    var n := |data|;
    var a := HistoryOf(data[leastRecent := v], Retreat(leastRecent, n));
    var b := Pushed(HistoryOf(data, leastRecent), v);
    forall k | 0 <= k < n
      ensures a[k] == b[k]
    {
      if k > 0 {
        assert Slot(Retreat(leastRecent, n), k, n) == Slot(leastRecent, k - 1, n);
      }
    }
  }

  /** Writing slot Slot(leastRecent, k) changes offset k of the history and nothing else. */
  lemma SetHistory(data: seq<real>, leastRecent: nat, k: nat, v: real)
    requires leastRecent < |data| && k < |data|
    ensures HistoryOf(data[Slot(leastRecent, k, |data|) := v], leastRecent) == HistoryOf(data, leastRecent)[k := v]
  {
    var n := |data|;
    var a := HistoryOf(data[Slot(leastRecent, k, n) := v], leastRecent);
    var b := HistoryOf(data, leastRecent)[k := v];
    forall j | 0 <= j < n
      ensures a[j] == b[j]
    {
      if j != k {
        assert Slot(leastRecent, j, n) != Slot(leastRecent, k, n);
      }
    }
  }

  /** The slot back() reads holds the oldest sample. */
  lemma BackIsOldest(data: seq<real>, leastRecent: nat)
    requires leastRecent < |data|
    ensures HistoryOf(data, leastRecent)[|data| - 1] == data[leastRecent]
  {
    assert Slot(leastRecent, |data| - 1, |data|) == leastRecent;
  }

  //==============================================================================
  /** DelayLine<Type>: a fixed-size circular buffer with a moving least-recent index. */
  class DelayLine {
    var rawData: array<real>
    var leastRecentIndex: nat
    /** What get(k) returns, for every k below size(). */
    ghost var History: seq<real>

    ghost predicate Valid()
      reads this, rawData
    {
      && (rawData.Length == 0 ==> leastRecentIndex == 0)
      && (rawData.Length > 0 ==> leastRecentIndex < rawData.Length)
      && History == HistoryOf(rawData[..], leastRecentIndex)
    }

    /** An empty vector and index 0. */
    constructor ()
      ensures Valid() && fresh(rawData)
      ensures rawData.Length == 0 && leastRecentIndex == 0 && History == []
    {
      rawData := new real[0];
      leastRecentIndex := 0;
      History := [];
    }

    function Size(): (n: nat)
      reads this
    {
      rawData.Length
    }

    /** Zero-fills the samples; the size and the index stay. */
    method Clear()
      requires Valid()
      modifies this, rawData
      ensures Valid() && rawData == old(rawData) && leastRecentIndex == old(leastRecentIndex)
      ensures History == seq(rawData.Length, _ => 0.0)
    {
      forall i | 0 <= i < rawData.Length {
        rawData[i] := 0.0;
      }
      History := HistoryOf(rawData[..], leastRecentIndex);
      assert rawData[..] == seq(rawData.Length, _ => 0.0);
    }

    /** Reallocates to n samples (keeping a prefix, as std::vector does) and resets the index to 0. */
    method Resize(n: nat)
      modifies this
      ensures Valid() && fresh(rawData)
      ensures Size() == n && leastRecentIndex == 0
      ensures rawData[..] == Resized(old(rawData[..]), n)
    {
      var kept := rawData[..];
      rawData := new real[n](i => if 0 <= i < |kept| then kept[i] else 0.0);
      leastRecentIndex := 0;
      History := HistoryOf(rawData[..], 0);
    }

    /** The least recently pushed sample: the one the next push overwrites. */
    function Back(): (v: real)
      reads this, rawData
      requires Valid() && Size() > 0
      ensures v == History[Size() - 1]
    {
      BackIsOldest(rawData[..], leastRecentIndex);
      rawData[leastRecentIndex]
    }

    /** The sample pushed `delayInSamples` pushes ago. */
    function Get(delayInSamples: nat): (v: real)
      reads this, rawData
      requires Valid() && delayInSamples < Size()
      ensures v == History[delayInSamples]
    {
      SlotIsModulo(leastRecentIndex, delayInSamples, rawData.Length);
      rawData[(leastRecentIndex + 1 + delayInSamples) % rawData.Length]
    }

    /** Overwrites the sample `delayInSamples` pushes ago. */
    method Set(delayInSamples: nat, newValue: real)
      requires Valid() && delayInSamples < Size()
      modifies this, rawData
      ensures Valid() && rawData == old(rawData) && leastRecentIndex == old(leastRecentIndex)
      ensures History == old(History)[delayInSamples := newValue]
    {
      SetHistory(rawData[..], leastRecentIndex, delayInSamples, newValue);
      SlotIsModulo(leastRecentIndex, delayInSamples, rawData.Length);
      rawData[(leastRecentIndex + 1 + delayInSamples) % rawData.Length] := newValue;
      History := History[delayInSamples := newValue];
    }

    /** Overwrites the least recently added sample and makes it the most recent one. */
    method Push(valueToAdd: real)
      requires Valid() && Size() > 0
      modifies this, rawData
      ensures Valid() && rawData == old(rawData)
      ensures History == Pushed(old(History), valueToAdd)
    {
      PushHistory(rawData[..], leastRecentIndex, valueToAdd);
      rawData[leastRecentIndex] := valueToAdd;
      leastRecentIndex := if leastRecentIndex == 0 then rawData.Length - 1 else leastRecentIndex - 1;
      History := Pushed(History, valueToAdd);
    }
  }

  //==============================================================================
  // Time-to-sample conversions

  /** updateDelayLineSize: ceil(maxDelayTime * sampleRate) samples. */
  function LineSize(maxDelayTime: real, sampleRate: real): (n: nat)
    requires maxDelayTime * sampleRate >= 0.0
    ensures maxDelayTime * sampleRate <= n as real < maxDelayTime * sampleRate + 1.0
  {
    Ceil(maxDelayTime * sampleRate)
  }

  /** updateDelayTime: size_t(roundToInt(delayTime * sampleRate)); the 32-bit int sign-extends, so negative values wrap. */
  function OffsetOf(delayTime: real, sampleRate: real): (n: nat)
    ensures n < SizeTModulus
    ensures 0.0 <= delayTime * sampleRate <= Int32Max as real ==>
              delayTime * sampleRate - 0.5 <= n as real <= delayTime * sampleRate + 0.5
    ensures Int32Min as real <= delayTime * sampleRate < -0.5 ==> n >= SizeTModulus + Int32Min
  {
    ToSizeT(RoundToInt(delayTime * sampleRate))
  }

  /** An offset is in range of a line exactly when the rounded delay is below the ceiled capacity. */
  lemma OffsetFits(delayTime: real, maxDelayTime: real, sampleRate: real)
    requires delayTime >= 0.0 && sampleRate > 0.0 && maxDelayTime * sampleRate >= 0.0
    requires delayTime * sampleRate <= Int32Max as real
    ensures OffsetOf(delayTime, sampleRate) < LineSize(maxDelayTime, sampleRate)
            <==> RoundHalfEven(delayTime * sampleRate) < Ceil(maxDelayTime * sampleRate)
  {
    assert delayTime * sampleRate >= 0.0;
  }

  /** At 44.1 kHz the longest delay time converts to 88200 samples: as many as the line holds, one beyond get's range. */
  lemma MaxDelayTimeFillsLine()
    ensures OffsetOf(MaxDelayTime, 44100.0) == 88200
    ensures LineSize(MaxDelayTime, 44100.0) == 88200
  {
    assert MaxDelayTime * 44100.0 == 88200.0;
    assert RoundHalfEven(88200.0) == 88200;
  }

  /** An indeterminate negative delay time wraps to an offset far beyond any line. */
  lemma NegativeDelayTimeWraps()
    ensures OffsetOf(-1.0, 44100.0) == SizeTModulus - 44100
    ensures OffsetOf(-1.0, 44100.0) > LineSize(MaxDelayTime, 44100.0)
  {
    assert RoundHalfEven(-44100.0) == -44100;
    MaxDelayTimeFillsLine();
  }

  /**
   * An exact half sample rounds to the even neighbour: 0.125 s at 44.1 kHz
   * is 5512.5 samples, which becomes an offset of 5512, not 5513.
   */
  lemma HalfSampleRoundsToEven()
    ensures OffsetOf(0.125, 44100.0) == 5512
  {
    assert 0.125 * 44100.0 == 5512.5;
    assert (5512.5).Floor == 5512;
  }

  /**
   * roundToInt returns a 32-bit int: a delay of 2.205e9 samples (50000 s at
   * 44.1 kHz) wraps to a negative int, which the size_t cast then turns
   * into an offset near 2^64.
   */
  lemma LongDelayTimeWraps()
    ensures RoundToInt(50000.0 * 44100.0) == 2205000000 - Int32Modulus
    ensures OffsetOf(50000.0, 44100.0) == SizeTModulus + 2205000000 - Int32Modulus
  {
    assert 50000.0 * 44100.0 == 2205000000.0;
    assert RoundHalfEven(2205000000.0) == 2205000000;
  }

  //==============================================================================
  // The per-sample algorithm of one channel, as a function of its inputs

  datatype DelayParams = DelayParams(feedback: real, wetLevel: real, bypassed: bool, coefs: Coefs)

  /** The outputs written, the line's history and the filter state after a run of samples. */
  datatype Run = Run(output: seq<real>, history: seq<real>, state: real)

  /**
   * One sample of Delay::process: read the line at `offset`, filter it, push
   * tanh(input + feedback * delayed), and output the input (bypassed) or
   * input + wetLevel * delayed.
   */
  function Step(r: Run, x: real, offset: nat, p: DelayParams, tanh: real -> real, step: FilterStep): (r': Run)
    requires offset < |r.history|
    ensures |r'.output| == |r.output| + 1 && |r'.history| == |r.history|
  {
    var filtered := step(p.coefs, r.state, r.history[offset]);
    Run(r.output + [if p.bypassed then x else x + Gain(p.wetLevel, filtered.0)],
        Pushed(r.history, tanh(x + Gain(p.feedback, filtered.0))),
        filtered.1)
  }

  /**
   * The first `count` samples of `input` through one channel of
   * Delay::process, starting from line history h and filter state `state`.
   */
  function DelayRun(h: seq<real>, offset: nat, state: real, input: seq<real>, count: nat, p: DelayParams,
                    tanh: real -> real, step: FilterStep): (r: Run)
    requires offset < |h| && count <= |input|
    ensures |r.output| == count && |r.history| == |h|
    decreases count
  {
    if count == 0 then Run([], h, state)
    else Step(DelayRun(h, offset, state, input, count - 1, p, tanh, step), input[count - 1], offset, p, tanh, step)
  }

  /** Output sample i is computed from the line and filter state left by the first i samples. */
  lemma {:induction false} OutputAt(h: seq<real>, offset: nat, state: real, input: seq<real>, count: nat, p: DelayParams,
                                    tanh: real -> real, step: FilterStep, i: nat)
    requires offset < |h| && i < count <= |input|
    ensures var prev := DelayRun(h, offset, state, input, i, p, tanh, step);
            var delayed := step(p.coefs, prev.state, prev.history[offset]).0;
            DelayRun(h, offset, state, input, count, p, tanh, step).output[i]
              == if p.bypassed then input[i] else input[i] + Gain(p.wetLevel, delayed)
    decreases count
  {
    if i < count - 1 {
      OutputAt(h, offset, state, input, count - 1, p, tanh, step, i);
      StepKeepsOutput(DelayRun(h, offset, state, input, count - 1, p, tanh, step), input[count - 1], offset, p, tanh, step, i);
    }
  }

  /** A step appends to the output and leaves the samples already written alone. */
  lemma StepKeepsOutput(r: Run, x: real, offset: nat, p: DelayParams, tanh: real -> real, step: FilterStep, i: nat)
    requires offset < |r.history| && i < |r.output|
    ensures Step(r, x, offset, p, tanh, step).output[i] == r.output[i]
  {
  }

  /** Bypassed, the delay writes its input unchanged. */
  lemma {:induction false} BypassedIsDry(h: seq<real>, offset: nat, state: real, input: seq<real>, count: nat, p: DelayParams,
                                         tanh: real -> real, step: FilterStep)
    requires offset < |h| && count <= |input| && p.bypassed
    ensures DelayRun(h, offset, state, input, count, p, tanh, step).output == input[..count]
    decreases count
  {
    if count > 0 {
      BypassedIsDry(h, offset, state, input, count - 1, p, tanh, step);
      assert input[..count] == input[..count - 1] + [input[count - 1]];
    }
  }

  /** The line and the filter evolve the same whether or not the stage is bypassed, whatever the wet level. */
  lemma {:induction false} LineIgnoresBypass(h: seq<real>, offset: nat, state: real, input: seq<real>, count: nat,
                                             p: DelayParams, q: DelayParams, tanh: real -> real, step: FilterStep)
    requires offset < |h| && count <= |input| && p.feedback == q.feedback && p.coefs == q.coefs
    ensures DelayRun(h, offset, state, input, count, p, tanh, step).history
            == DelayRun(h, offset, state, input, count, q, tanh, step).history
    ensures DelayRun(h, offset, state, input, count, p, tanh, step).state
            == DelayRun(h, offset, state, input, count, q, tanh, step).state
    decreases count
  {
    if count > 0 {
      LineIgnoresBypass(h, offset, state, input, count - 1, p, q, tanh, step);
    }
  }

  /** Exactly one push per sample: after n samples the old history has moved n places toward the end. */
  lemma {:induction false} OnePushPerSample(h: seq<real>, offset: nat, state: real, input: seq<real>, count: nat,
                                            p: DelayParams, tanh: real -> real, step: FilterStep, k: nat)
    requires offset < |h| && count <= |input| && count + k < |h|
    ensures DelayRun(h, offset, state, input, count, p, tanh, step).history[count + k] == h[k]
    decreases count
  {
    if count > 0 {
      OnePushPerSample(h, offset, state, input, count - 1, p, tanh, step, k);
    }
  }

  /** Without feedback the line holds tanh of the most recent inputs, newest first. */
  lemma {:induction false} RecentPushes(h: seq<real>, offset: nat, state: real, input: seq<real>, count: nat,
                                        p: DelayParams, tanh: real -> real, step: FilterStep, k: nat)
    requires offset < |h| && p.feedback == 0.0 && k < count <= |input| && k < |h|
    ensures DelayRun(h, offset, state, input, count, p, tanh, step).history[k] == tanh(input[count - 1 - k])
    decreases count
  {
    if k > 0 {
      RecentPushes(h, offset, state, input, count - 1, p, tanh, step, k - 1);
    }
  }

  /**
   * With no feedback and a pass-through feedback filter the stage is a plain
   * echo: output i is input i plus wetLevel times the saturated input
   * offset + 1 samples earlier (get(0) is the previous sample, so the echo
   * lags by one more sample than the offset).
   */
  lemma Echo(h: seq<real>, offset: nat, state: real, input: seq<real>, p: DelayParams,
             tanh: real -> real, step: FilterStep, i: nat)
    requires offset < |h| && p.feedback == 0.0 && !p.bypassed && offset < i < |input|
    requires forall c, m, x :: step(c, m, x) == (x, m)
    ensures DelayRun(h, offset, state, input, |input|, p, tanh, step).output[i]
            == input[i] + Gain(p.wetLevel, tanh(input[i - 1 - offset]))
  {
    OutputAt(h, offset, state, input, |input|, p, tanh, step, i);
    RecentPushes(h, offset, state, input, i, p, tanh, step, offset);
  }

  /** The body of the sample loop of Delay::process: one sample through one channel's line and filter. */
  method ProcessSample(line: DelayLine, block: array2<real>, ch: nat, i: nat, offset: nat, state: real, p: DelayParams,
                       tanh: real -> real, step: FilterStep, ghost prev: Run) returns (newState: real)
    requires line.Valid() && ch < block.Length0 && i < block.Length1 && offset < line.Size()
    requires line.History == prev.history && state == prev.state
    modifies line, line.rawData, block
    ensures line.Valid() && line.rawData == old(line.rawData)
    ensures var r := Step(prev, old(block[ch, i]), offset, p, tanh, step);
            line.History == r.history && newState == r.state && block[ch, i] == r.output[|prev.output|]
    ensures forall c, j :: 0 <= c < block.Length0 && 0 <= j < block.Length1 && (c != ch || j != i) ==> block[c, j] == old(block[c, j])
  {
    var filtered := step(p.coefs, state, line.Get(offset));
    var delayedSample := filtered.0;
    newState := filtered.1;
    var inputSample := block[ch, i];
    line.Push(tanh(inputSample + Gain(p.feedback, delayedSample)));
    if p.bypassed {
      block[ch, i] := inputSample;
    } else {
      block[ch, i] := inputSample + Gain(p.wetLevel, delayedSample);
    }
  }

  /**
   * The sample loop of Delay::process for one channel of a replacing
   * context, with that channel's line, offset and filter state; `input` is
   * the channel's samples on entry.
   */
  method RunChannel(line: DelayLine, block: array2<real>, ch: nat, offset: nat, state0: real, p: DelayParams,
                    tanh: real -> real, step: FilterStep, ghost input: seq<real>) returns (state: real)
    requires line.Valid() && ch < block.Length0 && offset < line.Size()
    requires RowIs(block, ch, input)
    modifies line, line.rawData, block
    ensures line.Valid() && line.rawData == old(line.rawData)
    ensures var r := DelayRun(old(line.History), offset, state0, input, |input|, p, tanh, step);
            line.History == r.history && state == r.state && RowIs(block, ch, r.output)
    ensures forall c, j :: 0 <= c < block.Length0 && c != ch && 0 <= j < block.Length1 ==> block[c, j] == old(block[c, j])
  {
    ghost var h0 := line.History;
    ghost var run := DelayRun(h0, offset, state0, input, 0, p, tanh, step);
    state := state0;
    var n := block.Length1;
    var i := 0;
    while i < n
      invariant 0 <= i <= n
      invariant line.Valid() && line.rawData == old(line.rawData) && line.Size() == |h0|
      invariant run == DelayRun(h0, offset, state0, input, i, p, tanh, step)
      invariant line.History == run.history && state == run.state
      invariant forall j :: 0 <= j < i ==> block[ch, j] == run.output[j]
      invariant forall j :: i <= j < n ==> block[ch, j] == input[j]
      invariant forall c, j :: 0 <= c < block.Length0 && c != ch && 0 <= j < n ==> block[c, j] == old(block[c, j])
    {
      state := ProcessSample(line, block, ch, i, offset, state, p, tanh, step, run);
      run := Step(run, input[i], offset, p, tanh, step);
      i := i + 1;
    }
  }

  /** The configuration of a Delay: its parameters, offsets, delay times, sample rate and maximum delay time. */
  datatype DelayConfig = DelayConfig(params: DelayParams, delayTimesSample: seq<nat>, delayTimes: seq<real>,
                                     sampleRate: real, maxDelayTime: real)

  //==============================================================================
  /** Delay<Type, maxNumChannels>: per-channel lines, offsets and feedback filters. */
  class Delay {
    const lines: seq<DelayLine>
    var delayTimesSample: seq<nat>
    var delayTimes: seq<real>
    var feedback: real
    var wetLevel: real
    var filterCoefs: Coefs
    var filterState: seq<real>
    var sampleRate: real
    var maxDelayTime: real
    var bypassed: bool
    ghost var Repr: set<object>

    ghost predicate Valid()
      reads this, Repr
    {
      && this in Repr
      && |lines| == MaxNumChannels && |delayTimesSample| == MaxNumChannels
      && |delayTimes| == MaxNumChannels && |filterState| == MaxNumChannels
      && sampleRate > 0.0 && maxDelayTime > 0.0
      && lines[0] in Repr && lines[0].rawData in Repr && lines[1] in Repr && lines[1].rawData in Repr
      && lines[0] != lines[1] && lines[0].rawData != lines[1].rawData
      && lines[0].Valid() && lines[1].Valid()
    }

    function Params(): DelayParams
      reads this
    {
      DelayParams(feedback, wetLevel, bypassed, filterCoefs)
    }

    /** Every field but the lines and the filter state: what processing leaves alone. */
    function Config(): DelayConfig
      reads this
    {
      DelayConfig(Params(), delayTimesSample, delayTimes, sampleRate, maxDelayTime)
    }

    /**
     * delayTimesSample is zeroed; delayTimes is left uninitialised by the
     * source, so its indeterminate contents are a parameter here.
     */
    constructor (indeterminateDelayTimes: seq<real>)
      requires |indeterminateDelayTimes| == MaxNumChannels
      ensures Valid() && fresh(Repr)
      ensures delayTimes == indeterminateDelayTimes && delayTimesSample == [0, 0]
      ensures feedback == 0.0 && wetLevel == 0.0 && !bypassed
      ensures sampleRate == 44100.0 && maxDelayTime == 2.0
      ensures filterCoefs == Default && filterState == [0.0, 0.0]
      ensures forall c :: 0 <= c < MaxNumChannels ==> lines[c].Size() == 0
    {
      var l0 := new DelayLine();
      var l1 := new DelayLine();
      lines := [l0, l1];
      delayTimesSample := [0, 0];
      delayTimes := indeterminateDelayTimes;
      feedback, wetLevel := 0.0, 0.0;
      filterCoefs := Default;
      filterState := [0.0, 0.0];
      sampleRate, maxDelayTime := 44100.0, 2.0;
      bypassed := false;
      Repr := {this, l0, l1, l0.rawData, l1.rawData};
    }

    function NumChannels(): (n: nat)
      reads this
    {
      |lines|
    }

    /** Resizes every line to ceil(maxDelayTime * sampleRate) samples. */
    method UpdateDelayLineSize()
      requires Valid()
      modifies lines[0], lines[1], this`Repr
      ensures Valid() && fresh(Repr - old(Repr))
      ensures forall c :: 0 <= c < MaxNumChannels ==>
                lines[c].Size() == LineSize(maxDelayTime, sampleRate) && lines[c].leastRecentIndex == 0
                && lines[c].rawData[..] == Resized(old(lines[c].rawData[..]), LineSize(maxDelayTime, sampleRate))
      ensures delayTimesSample == old(delayTimesSample) && delayTimes == old(delayTimes)
      ensures Params() == old(Params()) && filterState == old(filterState)
      ensures sampleRate == old(sampleRate) && maxDelayTime == old(maxDelayTime)
    {
      var size := LineSize(maxDelayTime, sampleRate);
      var c := 0;
      while c < |lines|
        invariant 0 <= c <= |lines|
        invariant Valid() && fresh(Repr - old(Repr))
        invariant forall d :: 0 <= d < c ==>
                    lines[d].Size() == size && lines[d].leastRecentIndex == 0
                    && lines[d].rawData[..] == Resized(old(lines[d].rawData[..]), size)
        invariant forall d :: c <= d < |lines| ==>
                    lines[d].rawData == old(lines[d].rawData) && lines[d].rawData[..] == old(lines[d].rawData[..])
      {
        lines[c].Resize(size);
        Repr := Repr + {lines[c].rawData};
        c := c + 1;
      }
    }

    /** Recomputes every channel's offset from its delay time. */
    method UpdateDelayTime()
      requires Valid()
      modifies this`delayTimesSample
      ensures Valid() && Repr == old(Repr)
      ensures forall c :: 0 <= c < MaxNumChannels ==> delayTimesSample[c] == OffsetOf(delayTimes[c], sampleRate)
      ensures delayTimes == old(delayTimes) && Params() == old(Params()) && filterState == old(filterState)
      ensures sampleRate == old(sampleRate) && maxDelayTime == old(maxDelayTime)
    {
      var ch := 0;
      while ch < MaxNumChannels
        invariant 0 <= ch <= MaxNumChannels
        invariant Valid()
        invariant forall c :: 0 <= c < ch ==> delayTimesSample[c] == OffsetOf(delayTimes[c], sampleRate)
      {
        delayTimesSample := delayTimesSample[ch := OffsetOf(delayTimes[ch], sampleRate)];
        ch := ch + 1;
      }
    }

    method SetMaxDelayTime(newValue: real)
      requires Valid() && newValue > 0.0
      modifies Repr
      ensures Valid() && fresh(Repr - old(Repr))
      ensures maxDelayTime == newValue
      ensures forall c :: 0 <= c < MaxNumChannels ==>
                lines[c].Size() == LineSize(newValue, sampleRate) && lines[c].leastRecentIndex == 0
                && lines[c].rawData[..] == Resized(old(lines[c].rawData[..]), LineSize(newValue, sampleRate))
      ensures delayTimesSample == old(delayTimesSample) && delayTimes == old(delayTimes)
      ensures Params() == old(Params()) && filterState == old(filterState) && sampleRate == old(sampleRate)
    {
      maxDelayTime := newValue;
      UpdateDelayLineSize();
    }

    /**
     * Sets the sample rate, sizes the lines twice (for the current maximum
     * delay time, then for MAX_DELAY_TIME), recomputes the offsets, and
     * installs a 1 kHz highpass in each channel's reset feedback filter.
     */
    method Prepare(specSampleRate: real, specNumChannels: nat)
      requires Valid() && specNumChannels <= MaxNumChannels && specSampleRate > 0.0
      modifies Repr
      ensures Valid() && fresh(Repr - old(Repr))
      ensures sampleRate == specSampleRate && maxDelayTime == MaxDelayTime
      ensures forall c :: 0 <= c < MaxNumChannels ==>
                lines[c].Size() == LineSize(MaxDelayTime, specSampleRate) && lines[c].leastRecentIndex == 0
                && lines[c].rawData[..] == Resized(Resized(old(lines[c].rawData[..]), LineSize(old(maxDelayTime), specSampleRate)),
                                                    LineSize(MaxDelayTime, specSampleRate))
      ensures delayTimes == old(delayTimes)
      ensures forall c :: 0 <= c < MaxNumChannels ==> delayTimesSample[c] == OffsetOf(delayTimes[c], specSampleRate)
      ensures filterCoefs == FirstOrderHighPass(specSampleRate, 1000.0) && filterState == [0.0, 0.0]
      ensures feedback == old(feedback) && wetLevel == old(wetLevel) && bypassed == old(bypassed)
    {
      sampleRate := specSampleRate;
      UpdateDelayLineSize();
      UpdateDelayTime();
      SetMaxDelayTime(MaxDelayTime);
      filterCoefs := FirstOrderHighPass(sampleRate, 1000.0);
      filterState := [0.0, 0.0];
    }

    method SetFeedback(newValue: real)
      requires 0.0 <= newValue <= 1.0
      modifies this`feedback
      ensures feedback == newValue
    {
      feedback := newValue;
    }

    method SetWetLevel(newValue: real)
      requires 0.0 <= newValue <= 1.0
      modifies this`wetLevel
      ensures wetLevel == newValue
    {
      wetLevel := newValue;
    }

    method SetBypassed(newValue: bool)
      modifies this`bypassed
      ensures bypassed == newValue
    {
      bypassed := newValue;
    }

    /** Stores one channel's delay time and recomputes every offset; a channel out of range changes nothing. */
    method SetDelayTime(channel: nat, newValue: real)
      requires Valid() && (channel < MaxNumChannels ==> newValue >= 0.0)
      modifies this
      ensures Valid() && Repr == old(Repr)
      ensures channel >= MaxNumChannels ==> delayTimes == old(delayTimes) && delayTimesSample == old(delayTimesSample)
      ensures channel < MaxNumChannels ==> delayTimes == old(delayTimes)[channel := newValue]
      ensures channel < MaxNumChannels ==>
                forall c :: 0 <= c < MaxNumChannels ==> delayTimesSample[c] == OffsetOf(delayTimes[c], sampleRate)
      ensures Params() == old(Params()) && filterState == old(filterState)
      ensures sampleRate == old(sampleRate) && maxDelayTime == old(maxDelayTime)
    {
      if channel >= NumChannels() {
        return;
      }
      delayTimes := delayTimes[channel := newValue];
      UpdateDelayTime();
    }

    /** Delay time, wet level, feedback and bypass of one channel from the settings snapshot. */
    method SetParams(settings: ChainSettings, channel: nat)
      requires Valid()
      requires channel < MaxNumChannels ==> settings.delayTime >= 0.0
      requires 0.0 <= settings.delayWetLevel <= 1.0 && 0.0 <= settings.delayFeedback <= 1.0
      modifies this
      ensures Valid() && Repr == old(Repr)
      ensures channel >= MaxNumChannels ==> delayTimes == old(delayTimes) && delayTimesSample == old(delayTimesSample)
      ensures channel < MaxNumChannels ==> delayTimes == old(delayTimes)[channel := settings.delayTime]
      ensures channel < MaxNumChannels ==>
                forall c :: 0 <= c < MaxNumChannels ==> delayTimesSample[c] == OffsetOf(delayTimes[c], sampleRate)
      ensures Params() == old(Params()).(feedback := settings.delayFeedback, wetLevel := settings.delayWetLevel,
                                         bypassed := settings.delayBypass)
      ensures filterState == old(filterState) && sampleRate == old(sampleRate) && maxDelayTime == old(maxDelayTime)
    {
      SetDelayTime(channel, settings.delayTime);
      SetWetLevel(settings.delayWetLevel);
      SetFeedback(settings.delayFeedback);
      SetBypassed(settings.delayBypass);
    }

    /**
     * Channel c of `block` and its line and filter hold what DelayRun
     * computes from the line history h0, filter state s0 and input x0.
     */
    ghost predicate Processed(block: array2<real>, c: nat, h0: seq<real>, s0: real, x0: seq<real>,
                              tanh: real -> real, step: FilterStep)
      reads this, Repr, block
      requires Valid() && c < block.Length0 && c < MaxNumChannels
    {
      && delayTimesSample[c] < |h0| && |x0| == block.Length1
      && var r := DelayRun(h0, delayTimesSample[c], s0, x0, block.Length1, Params(), tanh, step);
         RowIs(block, c, r.output) && lines[c].History == r.history && filterState[c] == r.state
    }

    /** One channel of Delay::process: the channel's sample loop with its own line, offset and filter state. */
    method ProcessChannel(block: array2<real>, ch: nat, tanh: real -> real, step: FilterStep, ghost input: seq<real>)
      requires Valid() && ch < block.Length0 && ch < MaxNumChannels && delayTimesSample[ch] < lines[ch].Size()
      requires RowIs(block, ch, input)
      modifies block, lines[ch], lines[ch].rawData, this`filterState
      ensures Valid() && lines[ch].rawData == old(lines[ch].rawData)
      ensures Processed(block, ch, old(lines[ch].History), old(filterState[ch]), input, tanh, step)
      ensures filterState == old(filterState)[ch := filterState[ch]]
      ensures forall c, j :: 0 <= c < block.Length0 && c != ch && 0 <= j < block.Length1 ==> block[c, j] == old(block[c, j])
    {
      var state := RunChannel(lines[ch], block, ch, delayTimesSample[ch], filterState[ch], Params(), tanh, step, input);
      filterState := filterState[ch := state];
    }

    /** process over a replacing context: every channel of the block runs through its own line and filter. */
    method Process(block: array2<real>, tanh: real -> real, step: FilterStep)
      requires Valid() && block.Length0 <= MaxNumChannels
      requires forall c :: 0 <= c < block.Length0 ==> delayTimesSample[c] < lines[c].Size()
      modifies block, lines[0], lines[0].rawData, lines[1], lines[1].rawData, this`filterState
      ensures Valid() && Repr == old(Repr)
      ensures Config() == old(Config())
      ensures lines[0].rawData == old(lines[0].rawData) && lines[1].rawData == old(lines[1].rawData)
      ensures block.Length0 > 0 ==> Processed(block, 0, old(lines[0].History), old(filterState[0]), old(Row(block, 0)), tanh, step)
      ensures block.Length0 > 1 ==> Processed(block, 1, old(lines[1].History), old(filterState[1]), old(Row(block, 1)), tanh, step)
      ensures block.Length0 < 1 ==> lines[0].History == old(lines[0].History) && filterState[0] == old(filterState[0])
      ensures block.Length0 < 2 ==> lines[1].History == old(lines[1].History) && filterState[1] == old(filterState[1])
    {
      ghost var x0, x1 := if block.Length0 > 0 then Row(block, 0) else [], if block.Length0 > 1 then Row(block, 1) else [];
      var ch := 0;
      while ch < block.Length0
        invariant 0 <= ch <= block.Length0
        invariant Valid()
        invariant lines[0].rawData == old(lines[0].rawData) && lines[1].rawData == old(lines[1].rawData)
        invariant ch > 0 ==> Processed(block, 0, old(lines[0].History), old(filterState[0]), x0, tanh, step)
        invariant ch > 1 ==> Processed(block, 1, old(lines[1].History), old(filterState[1]), x1, tanh, step)
        invariant ch < 1 ==> lines[0].History == old(lines[0].History) && filterState[0] == old(filterState[0])
        invariant ch < 2 ==> lines[1].History == old(lines[1].History) && filterState[1] == old(filterState[1])
        invariant ch < 1 && block.Length0 > 0 ==> RowIs(block, 0, x0)
        invariant ch < 2 && block.Length0 > 1 ==> RowIs(block, 1, x1)
      {
        ProcessChannel(block, ch, tanh, step, if ch == 0 then x0 else x1);
        ch := ch + 1;
      }
    }
  }
}

/**
 * Shared vocabulary of the signal chain: the coefficient-builder calls the
 * stages make (recorded by their arguments, not evaluated), the waveshaper
 * transfer functions they install, JUCE's linear range mapping `jmap`, and
 * the float-to-integer conversions used for sample offsets and line sizes.
 *
 * Sample values are `real`. The transcendental and floating-point library
 * code (tanh, the bilinear-transform coefficient formulas, decibel-to-gain
 * conversion) is never evaluated: coefficients are kept as the tuple that is
 * handed to the builder, and tanh is passed to the operations that need it.
 */
module Dsp {

  /** The coefficient set an IIR filter runs with, recorded as the call that built it. */
  datatype Coefs =
    /** What a default-constructed IIR::Filter runs with: the pass-through set 1/1. */
    | Default
    /** A default-constructed IIR::Coefficients object: every coefficient 0, so a filter running it outputs silence. */
    | Zero
    | FirstOrderHighPass(sampleRate: real, frequency: real)
    | FirstOrderLowPass(sampleRate: real, frequency: real)
    | HighShelf(sampleRate: real, cutOff: real, q: real, gainFactor: real)
    | LowShelf(sampleRate: real, cutOff: real, q: real, gainFactor: real)
    /** A peak filter; its gain factor is decibelsToGain(gainDecibels). */
    | Peak(sampleRate: real, frequency: real, q: real, gainDecibels: real)
    /** A builder handed a gain factor divided by zero: IEEE infinity or NaN, not a real number. */
    | NonFinite

  datatype Option<T> = None | Some(value: T)

  //==============================================================================
  // juce::dsp::ProcessorDuplicator

  /**
   * ProcessorDuplicator<IIR::Filter, IIR::Coefficients>. `state` is the
   * coefficient object its `state` reference names. `running` is the object its
   * mono filters were built with, which is what process filters with; it is
   * None until the first prepare builds them (each filter copies the reference
   * it is given). `sharesState` says whether both references still name the
   * same object, so that writing through one is seen by the other.
   */
  datatype Duplicator = Duplicator(state: Coefs, running: Option<Coefs>, sharesState: bool)

  /** A default-constructed duplicator: a new all-zero state object, and no filter built yet. */
  const NewDuplicator: Duplicator := Duplicator(Zero, None, false)

  /** When the references share one object, the filters run that object's current contents. */
  predicate Linked(d: Duplicator)
  {
    d.sharesState ==> d.running == Some(d.state)
  }

  /**
   * `state = makeFirstOrder...(...)`: the reference is made to name a new
   * object. The filters keep the object they were built with.
   */
  function AssignState(d: Duplicator, c: Coefs): (r: Duplicator)
    ensures r.state == c && r.running == d.running && !r.sharesState && Linked(r)
  {
    d.(state := c, sharesState := false)
  }

  /**
   * `*state = *makeFirstOrder...(...)`: the object the reference names is
   * overwritten, so filters that share it run the new coefficients.
   */
  function WriteState(d: Duplicator, c: Coefs): (r: Duplicator)
    ensures r.state == c && r.sharesState == d.sharesState
    ensures Linked(d) ==> Linked(r)
    ensures !d.sharesState ==> r.running == d.running
  {
    d.(state := c, running := if d.sharesState then Some(c) else d.running)
  }

  /**
   * prepare at a fixed channel count: the first call builds the filters
   * around the object `state` names, so they share it; a later call finds
   * them built and keeps them as they are.
   */
  function PrepareDuplicator(d: Duplicator): (r: Duplicator)
    ensures r.state == d.state && r.running.Some?
    ensures d.running.None? ==> r.running == Some(d.state) && r.sharesState
    ensures d.running.Some? ==> r == d
    ensures Linked(d) ==> Linked(r)
  {
    if d.running.None? then d.(running := Some(d.state), sharesState := true) else d
  }

  /** The calls a stage makes on a duplicator. */
  datatype DuplicatorCall = Assign(c: Coefs) | Write(c: Coefs) | Prepare

  function Call(d: Duplicator, call: DuplicatorCall): Duplicator
  {
    match call
    case Assign(c) => AssignState(d, c)
    case Write(c) => WriteState(d, c)
    case Prepare => PrepareDuplicator(d)
  }

  /** The calls made in order: the last one acts on what the others left. */
  function Calls(d: Duplicator, calls: seq<DuplicatorCall>): Duplicator
    decreases |calls|
  {
    if |calls| == 0 then d else Call(Calls(d, calls[..|calls| - 1]), calls[|calls| - 1])
  }

  /** Calls over two call lists in turn. */
  lemma {:induction false} CallsAppend(d: Duplicator, a: seq<DuplicatorCall>, b: seq<DuplicatorCall>)
    ensures Calls(d, a + b) == Calls(Calls(d, a), b)
    decreases |b|
  {
    if |b| > 0 {
      assert (a + b)[..|a + b| - 1] == a + b[..|b| - 1];
      CallsAppend(d, a, b[..|b| - 1]);
    } else {
      assert a + b == a;
    }
  }

  /** Every call keeps the invariant that a shared object means the filters run the state. */
  lemma {:induction false} CallsKeepLinked(d: Duplicator, calls: seq<DuplicatorCall>)
    requires Linked(d)
    ensures Linked(Calls(d, calls))
    decreases |calls|
  {
    if |calls| > 0 {
      CallsKeepLinked(d, calls[..|calls| - 1]);
    }
  }

  /** Once the filters are built, no assignment and no prepare changes what they run. */
  lemma {:induction false} AssignmentsNeverReachFilter(d: Duplicator, calls: seq<DuplicatorCall>)
    requires d.running.Some?
    requires forall i :: 0 <= i < |calls| ==> !calls[i].Write?
    ensures Calls(d, calls).running == d.running
    decreases |calls|
  {
    if |calls| > 0 {
      AssignmentsNeverReachFilter(d, calls[..|calls| - 1]);
      assert !calls[|calls| - 1].Write?;
    }
  }

  /**
   * After a prepare that built the filters around the state, writes and
   * prepares keep them sharing it: they always run the last coefficients
   * written.
   */
  lemma {:induction false} WritesReachFilter(d: Duplicator, calls: seq<DuplicatorCall>)
    requires Linked(d) && d.sharesState
    requires forall i :: 0 <= i < |calls| ==> !calls[i].Assign?
    ensures Calls(d, calls).sharesState && Calls(d, calls).running == Some(Calls(d, calls).state)
    ensures |calls| > 0 && calls[|calls| - 1].Write? ==> Calls(d, calls).running == Some(calls[|calls| - 1].c)
    decreases |calls|
  {
    if |calls| > 0 {
      WritesReachFilter(d, calls[..|calls| - 1]);
      assert !calls[|calls| - 1].Assign?;
    }
  }

  /** The transfer function a waveshaper runs with. */
  datatype Shaper =
    /** An empty std::function: nothing installed yet. */
    | Empty
    /** x |-> tanh(tone * x). */
    | Tanh(tone: real)

  /** A sample scaled by a linear gain. */
  function Gain(g: real, x: real): real
  {
    g * x
  }

  /** Applies a shaper, given the tanh the host library computes. */
  function Shape(s: Shaper, tanh: real -> real, x: real): real
    requires s.Tanh?
  {
    tanh(Gain(s.tone, x))
  }

  function Abs(x: real): (r: real)
    ensures r >= 0.0 && (r == x || r == -x)
  {
    if x < 0.0 then -x else x
  }

  /**
   * juce::jmap: the linear map sending [srcMin, srcMax] onto
   * [dstMin, dstMax]; values outside the source range extrapolate.
   */
  function Jmap(v: real, srcMin: real, srcMax: real, dstMin: real, dstMax: real): real
    requires srcMin != srcMax
  {
    dstMin + (dstMax - dstMin) * (v - srcMin) / (srcMax - srcMin)
  }

  lemma JmapEndpoints(srcMin: real, srcMax: real, dstMin: real, dstMax: real)
    requires srcMin != srcMax
    ensures Jmap(srcMin, srcMin, srcMax, dstMin, dstMax) == dstMin
    ensures Jmap(srcMax, srcMin, srcMax, dstMin, dstMax) == dstMax
  {
  }

  /** jmap over an increasing source range preserves order when the target increases and reverses it when it decreases. */
  lemma {:induction false} JmapMonotone(u: real, v: real, srcMin: real, srcMax: real, dstMin: real, dstMax: real)
    requires srcMin < srcMax && u < v
    ensures dstMin < dstMax ==> Jmap(u, srcMin, srcMax, dstMin, dstMax) < Jmap(v, srcMin, srcMax, dstMin, dstMax)
    ensures dstMin > dstMax ==> Jmap(u, srcMin, srcMax, dstMin, dstMax) > Jmap(v, srcMin, srcMax, dstMin, dstMax)
  {
    var w := srcMax - srcMin;
    var d := dstMax - dstMin;
    assert Jmap(v, srcMin, srcMax, dstMin, dstMax) - Jmap(u, srcMin, srcMax, dstMin, dstMax) == d * (v - u) / w;
    if d > 0.0 {
      assert d * (v - u) > 0.0;
    } else if d < 0.0 {
      assert d * (v - u) < 0.0;
    }
  }

  /** jmap of a value inside the source range lies between the target endpoints. */
  lemma {:induction false} JmapWithin(v: real, srcMin: real, srcMax: real, dstMin: real, dstMax: real)
    requires srcMin < srcMax && srcMin <= v <= srcMax
    ensures dstMin <= dstMax ==> dstMin <= Jmap(v, srcMin, srcMax, dstMin, dstMax) <= dstMax
    ensures dstMax <= dstMin ==> dstMax <= Jmap(v, srcMin, srcMax, dstMin, dstMax) <= dstMin
  {
    var d, a, w := dstMax - dstMin, v - srcMin, srcMax - srcMin;
    assert Jmap(v, srcMin, srcMax, dstMin, dstMax) == dstMin + d * a / w;
    MulDiv(d, a, w);
    var t := a / w;
    DivWithinUnit(a, w);
    ScaleWithin(d, t);
    var m := d * t;
    assert Jmap(v, srcMin, srcMax, dstMin, dstMax) == dstMin + m;
  }

  lemma MulDiv(a: real, b: real, c: real)
    requires c != 0.0
    ensures a * b / c == a * (b / c)
  {
  }

  lemma DivWithinUnit(a: real, c: real)
    requires c > 0.0 && 0.0 <= a <= c
    ensures 0.0 <= a / c <= 1.0
  {
  }

  lemma ScaleWithin(d: real, t: real)
    requires 0.0 <= t <= 1.0
    ensures d >= 0.0 ==> 0.0 <= d * t <= d
    ensures d <= 0.0 ==> d <= d * t <= 0.0
  {
    assert d - d * t == d * (1.0 - t);
  }

  const Int32Modulus: int := 0x1_0000_0000
  const Int32Min: int := -0x8000_0000
  const Int32Max: int := 0x7FFF_FFFF

  /**
   * The nearest integer under the floating-point unit's default rounding
   * mode: an exact half goes to the even neighbour.
   */
  function RoundHalfEven(x: real): (n: int)
    ensures x - 0.5 <= n as real <= x + 0.5
    ensures x - x.Floor as real != 0.5 ==> x - 0.5 < n as real < x + 0.5
    ensures x - x.Floor as real == 0.5 ==> n % 2 == 0
  {
    var f := x.Floor;
    var d := x - f as real;
    if d < 0.5 then f
    else if d > 0.5 then f + 1
    else if f % 2 == 0 then f else f + 1
  }

  /** The low 32-bit word of an integer, read as a two's-complement int. */
  function ToInt32(n: int): (r: int)
    ensures Int32Min <= r <= Int32Max
    ensures (r - n) % Int32Modulus == 0
    ensures Int32Min <= n <= Int32Max ==> r == n
  {
    (n - Int32Min) % Int32Modulus + Int32Min
  }

  /**
   * juce::roundToInt: adding 1.5 * 2^52 to the value as a double rounds it
   * to the nearest integer, halves to even, and the result is the low
   * 32-bit word of that double, so values outside the int range wrap.
   */
  function RoundToInt(x: real): (n: int)
    ensures Int32Min <= n <= Int32Max
    ensures Int32Min as real <= x <= Int32Max as real ==> x - 0.5 <= n as real <= x + 0.5
    ensures Int32Min as real <= x <= Int32Max as real && x - x.Floor as real == 0.5 ==> n % 2 == 0
  {
    ToInt32(RoundHalfEven(x))
  }

  /** std::ceil followed by a conversion to an integer. */
  function Ceil(x: real): (n: int)
    ensures x <= n as real < x + 1.0
  {
    if x.Floor as real == x then x.Floor else x.Floor + 1
  }

  /** One channel of an audio buffer stored channel by sample. */
  function Row(b: array2<real>, c: nat): (r: seq<real>)
    reads b
    requires c < b.Length0
    ensures |r| == b.Length1 && forall j :: 0 <= j < b.Length1 ==> r[j] == b[c, j]
  {
    seq(b.Length1, j requires 0 <= j < b.Length1 reads b => b[c, j])
  }

  /** Channel c of buffer b holds exactly the samples s. */
  ghost predicate RowIs(b: array2<real>, c: nat, s: seq<real>)
    reads b
    requires c < b.Length0
  {
    |s| == b.Length1 && forall j :: 0 <= j < b.Length1 ==> b[c, j] == s[j]
  }

  const SizeTModulus: int := 0x1_0000_0000_0000_0000

  /** static_cast<size_t> of an integer: wraps negative values modulo 2^64. */
  function ToSizeT(n: int): (r: nat)
    ensures r < SizeTModulus
    ensures 0 <= n < SizeTModulus ==> r == n
    ensures -SizeTModulus <= n < 0 ==> r == n + SizeTModulus
  {
    n % SizeTModulus
  }
}

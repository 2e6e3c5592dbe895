/**
 * protectYourEars (ClampOutput.h): the last safety net on the output
 * buffer. If any of the first numChannels channels has a peak magnitude
 * above 2 over the first sampleCount samples, the whole buffer is cleared;
 * otherwise every out-of-range sample in that region is hard-clipped to
 * [-1, 1].
 *
 * The buffer is an array2 indexed channel by sample. Its contents are also
 * read as a Grid, a sequence of channels, on which the result is specified.
 */
module ClampOutput {
  import opened Dsp

  /** The samples of a buffer, channel by channel. */
  type Grid = seq<seq<real>>

  /** Every channel of g holds at least n samples, and g has at least m channels. */
  ghost predicate Covers(g: Grid, n: int, m: int)
  {
    0 <= n && m <= |g| && forall c :: 0 <= c < |g| ==> n <= |g[c]|
  }

  ghost function Contents(b: array2<real>): (g: Grid)
    reads b
    ensures |g| == b.Length0
    ensures forall c :: 0 <= c < b.Length0 ==> |g[c]| == b.Length1
    ensures forall c, i :: 0 <= c < b.Length0 && 0 <= i < b.Length1 ==> g[c][i] == b[c, i]
  {
    seq(b.Length0, c requires 0 <= c < b.Length0 reads b => seq(b.Length1, i requires 0 <= i < b.Length1 reads b => b[c, i]))
  }

  /** Hard clipping to [-1, 1]. */
  function Clamp(x: real): (y: real)
    ensures -1.0 <= y <= 1.0
    ensures -1.0 <= x <= 1.0 ==> y == x
    ensures x < -1.0 ==> y == -1.0
    ensures x > 1.0 ==> y == 1.0
  {
    if x < -1.0 then -1.0 else if x > 1.0 then 1.0 else x
  }

  /**
   * AudioBuffer::getMagnitude(channel, 0, n): the largest absolute value
   * among the first n samples of a channel, and 0 for no samples.
   */
  function Magnitude(b: array2<real>, c: nat, n: nat): (r: real)
    reads b
    requires c < b.Length0 && n <= b.Length1
    ensures r >= 0.0
    ensures forall i :: 0 <= i < n ==> Abs(b[c, i]) <= r
    ensures n > 0 ==> exists i :: 0 <= i < n && Abs(b[c, i]) == r
    ensures n == 0 ==> r == 0.0
  {
    if n == 0 then 0.0
    else
      var m := Magnitude(b, c, n - 1);
      if Abs(b[c, n - 1]) > m then Abs(b[c, n - 1]) else m
  }

  /** Some sample of the region has magnitude above 2: the buffer is silenced. */
  ghost predicate Loud(g: Grid, n: int, m: int)
    requires Covers(g, n, m)
  {
    exists c, i :: 0 <= c < m && 0 <= i < n && Abs(g[c][i]) > 2.0
  }

  /** The buffer protectYourEars leaves behind, given the buffer it was handed. */
  ghost function Protect(g: Grid, n: int, m: int): (r: Grid)
    requires Covers(g, n, m)
    ensures |r| == |g| && forall c :: 0 <= c < |g| ==> |r[c]| == |g[c]|
  {
    if Loud(g, n, m) then
      seq(|g|, c requires 0 <= c < |g| => seq(|g[c]|, i => 0.0))
    else
      seq(|g|, c requires 0 <= c < |g| =>
        seq(|g[c]|, i requires 0 <= i < |g[c]| => if c < m && i < n then Clamp(g[c][i]) else g[c][i]))
  }

  /** A loud sample anywhere in the region clears the whole buffer, including samples outside the region. */
  lemma LoudClears(g: Grid, n: int, m: int, c: nat, i: nat)
    requires Covers(g, n, m) && Loud(g, n, m) && c < |g| && i < |g[c]|
    ensures Protect(g, n, m)[c][i] == 0.0
  {
  }

  /** A quiet buffer keeps its samples in [-1, 1] and clips the others to the nearer bound. */
  lemma QuietClamps(g: Grid, n: int, m: int, c: nat, i: nat)
    requires Covers(g, n, m) && !Loud(g, n, m) && c < m && i < n
    ensures -1.0 <= g[c][i] <= 1.0 ==> Protect(g, n, m)[c][i] == g[c][i]
    ensures g[c][i] < -1.0 ==> Protect(g, n, m)[c][i] == -1.0
    ensures g[c][i] > 1.0 ==> Protect(g, n, m)[c][i] == 1.0
  {
  }

  /** Without a loud sample, channels beyond m and samples beyond n are left alone. */
  lemma QuietOutsideUntouched(g: Grid, n: int, m: int, c: nat, i: nat)
    requires Covers(g, n, m) && !Loud(g, n, m) && c < |g| && i < |g[c]| && (c >= m || i >= n)
    ensures Protect(g, n, m)[c][i] == g[c][i]
  {
  }

  /** Whichever way it returns, every sample of the region ends in [-1, 1]. */
  lemma RegionInRange(g: Grid, n: int, m: int, c: nat, i: nat)
    requires Covers(g, n, m) && c < m && i < n
    ensures -1.0 <= Protect(g, n, m)[c][i] <= 1.0
  {
  }

  /** The region of a protected buffer is never loud. */
  lemma ProtectedIsQuiet(g: Grid, n: int, m: int)
    requires Covers(g, n, m)
    ensures Covers(Protect(g, n, m), n, m) && !Loud(Protect(g, n, m), n, m)
  {
    var r := Protect(g, n, m);
    forall c, i | 0 <= c < m && 0 <= i < n
      ensures Abs(r[c][i]) <= 1.0
    {
      RegionInRange(g, n, m, c, i);
    }
  }

  /** Protecting a buffer twice leaves it as protecting it once. */
  lemma {:induction false} Idempotent(g: Grid, n: int, m: int)
    requires Covers(g, n, m)
    ensures Covers(Protect(g, n, m), n, m)
    ensures Protect(Protect(g, n, m), n, m) == Protect(g, n, m)
  {
    var r := Protect(g, n, m);
    ProtectedIsQuiet(g, n, m);
    var rr := Protect(r, n, m);
    forall c | 0 <= c < |r|
      ensures rr[c] == r[c]
    {
      assert |rr[c]| == |r[c]|;
      forall i | 0 <= i < |r[c]|
        ensures rr[c][i] == r[c][i]
      {
        if c < m && i < n {
          RegionInRange(g, n, m, c, i);
        }
      }
    }
  }

  /** buffer.clear(): every sample of every channel becomes 0. */
  method Clear(buffer: array2<real>)
    modifies buffer
    ensures forall c, i :: 0 <= c < buffer.Length0 && 0 <= i < buffer.Length1 ==> buffer[c, i] == 0.0
  {
    var c := 0;
    while c < buffer.Length0
      invariant 0 <= c <= buffer.Length0
      invariant forall d, i :: 0 <= d < c && 0 <= i < buffer.Length1 ==> buffer[d, i] == 0.0
    {
      var i := 0;
      while i < buffer.Length1
        invariant 0 <= i <= buffer.Length1
        invariant forall d, j :: 0 <= d < c && 0 <= j < buffer.Length1 ==> buffer[d, j] == 0.0
        invariant forall j :: 0 <= j < i ==> buffer[c, j] == 0.0
      {
        buffer[c, i] := 0.0;
        i := i + 1;
      }
      c := c + 1;
    }
  }

  /** Two grids with the same shape and the same samples are equal. */
  lemma GridIs(b: array2<real>, g: Grid)
    requires |g| == b.Length0 && forall c :: 0 <= c < |g| ==> |g[c]| == b.Length1
    requires forall c, i :: 0 <= c < b.Length0 && 0 <= i < b.Length1 ==> b[c, i] == g[c][i]
    ensures Contents(b) == g
  {
    var h := Contents(b);
    forall c | 0 <= c < |g|
      ensures h[c] == g[c]
    {
    }
  }

  /**
   * protectYourEars(buffer, sampleCount, numChannels). Channels are visited
   * in order; a loud channel clears the buffer and returns at once, which
   * also zeroes the channels already clipped.
   */
  method ProtectYourEars(buffer: array2<real>, sampleCount: int, numChannels: int)
    requires 0 <= sampleCount <= buffer.Length1 && numChannels <= buffer.Length0
    modifies buffer
    ensures Covers(old(Contents(buffer)), sampleCount, numChannels)
    ensures Contents(buffer) == Protect(old(Contents(buffer)), sampleCount, numChannels)
  {
    ghost var g0 := Contents(buffer);
    assert Covers(g0, sampleCount, numChannels);
    var channel := 0;
    while channel < numChannels
      invariant 0 <= channel <= if numChannels < 0 then 0 else numChannels
      invariant forall c, i :: 0 <= c < buffer.Length0 && 0 <= i < buffer.Length1 ==>
                  buffer[c, i] == if c < channel && i < sampleCount then Clamp(g0[c][i]) else g0[c][i]
      invariant forall c, i :: 0 <= c < channel && 0 <= i < sampleCount ==> Abs(g0[c][i]) <= 2.0
    {
      if Magnitude(buffer, channel, sampleCount) > 2.0 {
        ghost var i :| 0 <= i < sampleCount && Abs(buffer[channel, i]) == Magnitude(buffer, channel, sampleCount);
        assert Abs(g0[channel][i]) > 2.0;
        Clear(buffer);
        GridIs(buffer, Protect(g0, sampleCount, numChannels));
        return;
      }
      assert forall j :: 0 <= j < sampleCount ==> Abs(g0[channel][j]) <= 2.0;
      var i := 0;
      while i < sampleCount
        invariant 0 <= i <= sampleCount
        invariant forall c, j :: 0 <= c < buffer.Length0 && 0 <= j < buffer.Length1 ==>
                    buffer[c, j] == if c < channel || (c == channel && j < i) then
                                      (if j < sampleCount then Clamp(g0[c][j]) else g0[c][j])
                                    else g0[c][j]
      {
        var x := buffer[channel, i];
        if x < -1.0 {
          buffer[channel, i] := -1.0;
        } else if x > 1.0 {
          buffer[channel, i] := 1.0;
        }
        i := i + 1;
      }
      channel := channel + 1;
    }
    assert !Loud(g0, sampleCount, numChannels);
    GridIs(buffer, Protect(g0, sampleCount, numChannels));
  }
}

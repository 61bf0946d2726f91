/** The rolling window arithmetic behind the chart's running means (src/renderer.js:128-155),
    over exact reals. */
module RollingWindow {

  /** Number of samples kept per channel (src/renderer.js:17). */
  const COUNT: nat := 250

  function Min(a: nat, b: nat): nat { if a <= b then a else b }

  /** `new Array(n).fill(0)`. */
  function Zeros(n: nat): seq<real> { seq(n, _ => 0.0) }

  function Sum(s: seq<real>): real
  {
    if s == [] then 0.0 else s[0] + Sum(s[1..])
  }

  /** Arithmetic mean; the empty window has mean 0, the initial value of `avg1`/`avg2`. */
  function Mean(s: seq<real>): real
  {
    if s == [] then 0.0 else Sum(s) / (|s| as real)
  }

  /** The last `k` elements of `s` (all of `s` when it is shorter). */
  function Last(s: seq<real>, k: nat): (r: seq<real>)
    ensures |r| == Min(k, |s|)
  {
    if k <= |s| then s[|s| - k..] else s
  }

  lemma {:induction false} SumAppend(a: seq<real>, b: seq<real>)
    ensures Sum(a + b) == Sum(a) + Sum(b)
  {
    if a == [] {
      assert a + b == b;
    } else {
      assert (a + b)[1..] == a[1..] + b;
      SumAppend(a[1..], b);
    }
  }

  /** While filling: the window after a push/shift of `x` onto `d` is the old last `k`
      elements followed by `x`, and its mean is what the source recomputes. */
  lemma FillStep(d: seq<real>, k: nat, x: real)
    requires k < |d|
    ensures Last((d + [x])[1..], k + 1) == Last(d, k) + [x]
    ensures Mean(Last((d + [x])[1..], k + 1)) == (Sum(Last(d, k)) + x) / ((k + 1) as real)
  {
    assert Last((d + [x])[1..], k + 1) == Last(d, k) + [x];
    SumAppend(Last(d, k), [x]);
  }

  /** Once full: subtracting the evicted head over COUNT and adding the new sample over COUNT
      turns the mean of the old window into the mean of the new one. */
  lemma SlideStep(d: seq<real>, avg: real, x: real)
    requires |d| == COUNT && avg == Mean(d)
    ensures Mean((d + [x])[1..]) == avg - d[0] / (COUNT as real) + x / (COUNT as real)
  {
    var d' := (d + [x])[1..];
    assert d' == d[1..] + [x];
    assert d == [d[0]] + d[1..];
    SumAppend(d[1..], [x]);
    SumAppend([d[0]], d[1..]);
    assert Sum(d') == Sum(d) - d[0] + x;
  }

  /** The rolling window after each sample of `xs` is pushed and the oldest element
      shifted out, as the chart's display arrays evolve tick by tick. */
  function Pushes(d: seq<real>, xs: seq<real>): seq<real>
    decreases |xs|
  {
    if xs == [] then d else Pushes((d + [xs[0]])[1..], xs[1..])
  }

  /** Pushing `xs` keeps the length and leaves the concatenation minus its first `|xs|`
      elements: the display holds the latest values, oldest first. */
  lemma {:induction false} PushesShift(d: seq<real>, xs: seq<real>)
    ensures Pushes(d, xs) == (d + xs)[|xs|..]
    decreases |xs|
  {
    if xs != [] {
      var d' := (d + [xs[0]])[1..];
      PushesShift(d', xs[1..]);
      assert (d' + xs[1..])[|xs| - 1..] == (d + xs)[|xs|..];
    }
  }

  /** After at least `|d|` pushes the display holds exactly the last `|d|` samples. */
  lemma PushesForget(d: seq<real>, xs: seq<real>)
    requires |d| <= |xs|
    ensures Pushes(d, xs) == Last(xs, |d|)
  {
    PushesShift(d, xs);
    assert (d + xs)[|xs|..] == xs[|xs| - |d|..];
  }

  /** One more tick extends the run by one push/shift. */
  lemma PushesSnoc(d: seq<real>, xs: seq<real>, x: real)
    ensures Pushes(d, xs + [x]) == (Pushes(d, xs) + [x])[1..]
  {
    PushesShift(d, xs + [x]);
    PushesShift(d, xs);
    assert d + (xs + [x]) == (d + xs) + [x];
  }

  /** From the zero-filled start, after `n <= COUNT` ticks the last `n` display elements are
      the `n` samples in tick order, and a mean consistent with `count == n` is their mean. */
  lemma FilledWithSamples(xs: seq<real>, avg: real)
    requires |xs| <= COUNT
    ensures Last(Pushes(Zeros(COUNT), xs), |xs|) == xs
    ensures MeanOf(Pushes(Zeros(COUNT), xs), |xs|, avg) ==> avg == Mean(xs)
  {
    PushesShift(Zeros(COUNT), xs);
    assert (Zeros(COUNT) + xs)[|xs|..][COUNT - |xs|..] == xs;
  }

  /** The running mean `avg` averages the last `c` elements of the display array `d`. */
  predicate MeanOf(d: seq<real>, c: nat, avg: real)
  {
    avg == Mean(Last(d, c))
  }

  /** The mean the tick computes: recomputed while filling, slid once full. */
  function TickMean(d: seq<real>, c: nat, avg: real, x: real): real
    requires c <= |d| && |d| == COUNT
  {
    if c >= COUNT then avg - d[0] / (COUNT as real) + x / (COUNT as real)
    else (Sum(Last(d, c)) + x) / ((c + 1) as real)
  }

  function TickCount(c: nat): nat
  {
    if c < COUNT then c + 1 else COUNT
  }

  /** Once full, the slid mean differs from the mean of the new window exactly as the old
      mean differed from the mean of the old window. */
  lemma SlideOffset(d: seq<real>, avg: real, x: real)
    requires |d| == COUNT
    ensures TickMean(d, COUNT, avg, x) - Mean((d + [x])[1..]) == avg - Mean(d)
  {
    SlideStep(d, Mean(d), x);
  }

  /** While filling, the recomputed mean is the mean of the last `c + 1` elements after the
      push/shift, whatever `avg` was. */
  lemma FillTick(d: seq<real>, c: nat, avg: real, x: real)
    requires c < COUNT && |d| == COUNT
    ensures MeanOf((d + [x])[1..], c + 1, TickMean(d, c, avg, x))
  {
    FillStep(d, c, x);
  }

  /** Once full, a consistent mean stays consistent and an inconsistent one stays off by
      the same amount. */
  lemma SlideTick(d: seq<real>, avg: real, x: real)
    requires |d| == COUNT
    ensures MeanOf(d, COUNT, avg) ==> MeanOf((d + [x])[1..], COUNT, TickMean(d, COUNT, avg, x))
    ensures TickMean(d, COUNT, avg, x) - Mean((d + [x])[1..]) == avg - Mean(d)
  {
    var d' := (d + [x])[1..];
    assert Last(d, COUNT) == d && Last(d', COUNT) == d';
    SlideOffset(d, avg, x);
  }

  /** One tick on one channel (push then shift of `x`). */
  lemma TickStep(d: seq<real>, c: nat, avg: real, x: real)
    requires c <= COUNT && |d| == COUNT
    ensures c < COUNT || MeanOf(d, c, avg) ==> MeanOf((d + [x])[1..], TickCount(c), TickMean(d, c, avg, x))
    ensures c == COUNT ==>
      TickMean(d, c, avg, x) - Mean((d + [x])[1..]) == avg - Mean(d)
  {
    if c < COUNT {
      FillTick(d, c, avg, x);
    } else {
      SlideTick(d, avg, x);
    }
  }

  lemma {:induction false} SumZeros(n: nat)
    ensures Sum(Zeros(n)) == 0.0
  {
    if n > 0 {
      assert Zeros(n)[1..] == Zeros(n - 1);
      SumZeros(n - 1);
    }
  }

  /** After a reset to zeros the mean of any window is 0, so a nonzero running mean no
      longer matches the display. */
  lemma ResetBreaksMean(c: nat, avg: real)
    requires c <= COUNT && avg != 0.0
    ensures !MeanOf(Zeros(COUNT), c, avg)
  {
    assert Last(Zeros(COUNT), c) == Zeros(c);
    SumZeros(c);
  }
}

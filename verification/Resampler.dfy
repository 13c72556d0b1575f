/** The streaming linear resampler, over the reals. */
module Resampler {

  // ── Quantisation ────────────────────────────────────────────────────────────

  /** `lround`: halves away from zero. */
  function Round(x: real): int {
    if x >= 0.0 then (x + 0.5).Floor else -((-x + 0.5).Floor)
  }

  function Clamp(v: real): real {
    if v > 1.0 then 1.0 else if v < -1.0 then -1.0 else v
  }

  function ToInt16(v: real): int {
    Round(Clamp(v) * 32767.0)
  }

  // ── What is emitted ─────────────────────────────────────────────────────────

  /** Where in the source output `k` lies. */
  function Position(step: real, k: nat): real {
    (k as real) * step
  }

  /** The source at a position, between two samples on the line from one to the other. */
  function Scaled(a: real, frac: real): real {
    a * frac
  }

  function Line(before: real, at: real, frac: real): real {
    before + Scaled(at - before, frac)
  }

  function Sample(xs: seq<real>, i: int): real {
    if 0 <= i < |xs| then xs[i] else 0.0
  }

  /** Position `p` lies in the interval that ends with sample `m`. */
  predicate InInterval(p: real, m: int) {
    (m as real) - 1.0 < p <= m as real
  }

  /** Output `k` is the quantised line between the two samples around its position. */
  predicate Emits(step: real, xs: seq<real>, k: nat, out: int) {
    exists m: nat :: m < |xs| && InInterval(Position(step, k), m)
                     && out == ToInt16(Line(Sample(xs, m - 1), xs[m], Position(step, k) - (m as real - 1.0)))
  }

  /** The outputs after the samples `xs`: exactly those that lie at or before the last sample. */
  ghost predicate Emitted(step: real, xs: seq<real>, out: seq<int>) {
    && (forall k: nat :: k < |out| <==> Position(step, k) <= |xs| as real - 1.0)
    && (forall k: nat :: k < |out| ==> Emits(step, xs, k, out[k]))
  }

  lemma PositionStep(step: real, k: nat)
    ensures Position(step, k + 1) == Position(step, k) + step
  {}

  lemma {:induction false} PositionGrows(step: real, j: nat, k: nat)
    requires step > 0.0 && j <= k
    ensures Position(step, j) <= Position(step, k)
    decreases k - j
  {
    if j < k {
      PositionStep(step, j);
      PositionGrows(step, j + 1, k);
    }
  }

  /** The first `n` outputs are those up to a place when the last of them is and the next is not. */
  lemma ExactlyThose(step: real, n: nat, to: real)
    requires step > 0.0 && Position(step, n) > to && (n > 0 ==> Position(step, n - 1) <= to)
    ensures forall k: nat :: k < n <==> Position(step, k) <= to
  {
    forall k: nat
      ensures k < n <==> Position(step, k) <= to
    {
      if k < n {
        PositionGrows(step, k, n - 1);
      } else {
        PositionGrows(step, n, k);
      }
    }
  }

  lemma Positive(a: real, b: real)
    requires a > 0.0 && b > 0.0
    ensures a * b > 0.0
  {}

  lemma Negative(a: real, b: real)
    requires a < 0.0 && b > 0.0
    ensures a * b < 0.0
  {
    Positive(-a, b);
    assert (-a) * b == -(a * b);
  }

  /** Some output lies beyond any place of the source. */
  lemma SomeOutputBeyond(step: real, to: real) returns (n: nat)
    requires step > 0.0 && to >= 0.0
    ensures Position(step, n) > to
  {
    var q := to / step;
    assert q * step == to;
    if q < 0.0 {
      Negative(q, step);
    }
    n := q.Floor + 1;
    Positive(n as real - q, step);
    assert (n as real - q) * step == (n as real) * step - q * step;
  }

  lemma EmitsBy(step: real, xs: seq<real>, k: nat, m: nat)
    requires m < |xs| && InInterval(Position(step, k), m)
    ensures Emits(step, xs, k, ToInt16(Line(Sample(xs, m - 1), xs[m], Position(step, k) - (m as real - 1.0))))
  {}

  /** Once emitted, an output is not touched by later samples. */
  lemma EmitsMore(step: real, xs: seq<real>, s: real, k: nat, out: int)
    requires Emits(step, xs, k, out)
    ensures Emits(step, xs + [s], k, out)
  {
    var m: nat :| m < |xs| && InInterval(Position(step, k), m)
                  && out == ToInt16(Line(Sample(xs, m - 1), xs[m], Position(step, k) - (m as real - 1.0)));
    assert Sample(xs + [s], m - 1) == Sample(xs, m - 1) && (xs + [s])[m] == xs[m];
  }

  // ── The object ──────────────────────────────────────────────────────────────

  class Resampler {
    const step: real
    var nextOut: real
    var srcIndex: real
    var prev: real

    /** The state after the samples `xs` have produced `n` outputs. */
    ghost predicate At(xs: seq<real>, n: nat)
      reads this
    {
      && step > 0.0 && nextOut == Position(step, n) && srcIndex == |xs| as real
      && prev == Sample(xs, |xs| - 1) && nextOut > |xs| as real - 1.0
    }

    /** `reset`, for a source rate above zero. */
    constructor (rate: real)
      requires rate > 0.0
      ensures At([], 0) && step == rate / 16000.0
    {
      step := rate / 16000.0;
      nextOut, srcIndex, prev := 0.0, 0.0, 0.0;
    }

    method Feed(s: real, out: seq<int>, ghost xs: seq<real>) returns (more: seq<int>)
      requires At(xs, |out|) && Emitted(step, xs, out)
      modifies this
      ensures At(xs + [s], |more|) && Emitted(step, xs + [s], more) && out <= more
    {
      more := out;
      ghost var ys := xs + [s];
      forall k: nat | k < |out|
        ensures Emits(step, ys, k, out[k])
      {
        EmitsMore(step, xs, s, k, out[k]);
      }
      ghost var last := SomeOutputBeyond(step, srcIndex);
      while nextOut <= srcIndex
        invariant step > 0.0 && nextOut == Position(step, |more|) && nextOut > |xs| as real - 1.0
        invariant srcIndex == |xs| as real && prev == Sample(xs, |xs| - 1)
        invariant out <= more && forall k: nat :: k < |more| ==> Emits(step, ys, k, more[k])
        invariant |more| > 0 ==> Position(step, |more| - 1) <= |xs| as real
        decreases last - |more|
      {
        if last <= |more| {
          PositionGrows(step, last, |more|);
          assert false;
        }
        PositionStep(step, |more|);
        var frac := nextOut - (srcIndex - 1.0);
        var val := prev + Scaled(s - prev, frac);
        assert Sample(ys, |xs| - 1) == Sample(xs, |xs| - 1) && ys[|xs|] == s;
        assert InInterval(Position(step, |more|), |xs|);
        EmitsBy(step, ys, |more|, |xs|);
        assert val == Line(Sample(ys, |xs| - 1), ys[|xs|], Position(step, |more|) - (|xs| as real - 1.0));
        more := more + [ToInt16(val)];
        nextOut := nextOut + step;
      }
      ExactlyThose(step, |more|, |xs| as real);
      assert |ys| as real - 1.0 == |xs| as real;
      prev := s;
      srcIndex := srcIndex + 1.0;
    }

    /** One chunk of a recording: the result is that of the recording so far, wherever it was cut. */
    method FeedChunk(chunk: seq<real>, out: seq<int>, ghost xs: seq<real>) returns (more: seq<int>)
      requires At(xs, |out|) && Emitted(step, xs, out)
      modifies this
      ensures At(xs + chunk, |more|) && Emitted(step, xs + chunk, more) && out <= more
    {
      more := out;
      assert xs + chunk[..0] == xs;
      for i := 0 to |chunk|
        invariant At(xs + chunk[..i], |more|) && Emitted(step, xs + chunk[..i], more) && out <= more
      {
        assert (xs + chunk[..i]) + [chunk[i]] == xs + chunk[..i+1];
        more := Feed(chunk[i], more, xs + chunk[..i]);
      }
      assert chunk[..|chunk|] == chunk;
    }
  }

  // ── Consequences ────────────────────────────────────────────────────────────

  lemma IntervalIsUnique(p: real, m: int, n: int)
    requires InInterval(p, m) && InInterval(p, n)
    ensures m == n
  {}

  lemma EmitsIsUnique(step: real, xs: seq<real>, k: nat, a: int, b: int)
    requires Emits(step, xs, k, a) && Emits(step, xs, k, b)
    ensures a == b
  {
    var m: nat :| m < |xs| && InInterval(Position(step, k), m)
                  && a == ToInt16(Line(Sample(xs, m - 1), xs[m], Position(step, k) - (m as real - 1.0)));
    var n: nat :| n < |xs| && InInterval(Position(step, k), n)
                  && b == ToInt16(Line(Sample(xs, n - 1), xs[n], Position(step, k) - (n as real - 1.0)));
    IntervalIsUnique(Position(step, k), m, n);
  }

  /** The recording alone determines the output, so the places where it was cut into chunks do not matter. */
  lemma OutputIsDetermined(step: real, xs: seq<real>, a: seq<int>, b: seq<int>)
    requires Emitted(step, xs, a) && Emitted(step, xs, b)
    ensures a == b
  {
    var la: nat, lb: nat := |a|, |b|;
    assert la < |b| <==> la < |a| by {
      assert la < |b| <==> Position(step, la) <= |xs| as real - 1.0;
    }
    assert lb < |b| <==> lb < |a| by {
      assert lb < |b| <==> Position(step, lb) <= |xs| as real - 1.0;
    }
    forall k: nat | k < |a|
      ensures a[k] == b[k]
    {
      EmitsIsUnique(step, xs, k, a[k], b[k]);
    }
  }

  lemma NotNegative(a: real, b: real)
    requires a >= 0.0 && b >= 0.0
    ensures a * b >= 0.0
  {}

  lemma PartOf(a: real, frac: real)
    requires a >= 0.0 && 0.0 <= frac <= 1.0
    ensures 0.0 <= Scaled(a, frac) <= a
  {
    NotNegative(a, frac);
    NotNegative(a, 1.0 - frac);
    assert a * (1.0 - frac) == a - a * frac;
  }

  lemma Opposite(a: real, frac: real)
    ensures Scaled(-a, frac) == -Scaled(a, frac)
  {}

  lemma BetweenStays(before: real, at: real, frac: real)
    requires -1.0 <= before <= 1.0 && -1.0 <= at <= 1.0 && 0.0 <= frac <= 1.0
    ensures -1.0 <= Line(before, at, frac) <= 1.0
  {
    var d := at - before;
    if d >= 0.0 {
      PartOf(d, frac);
    } else {
      PartOf(-d, frac);
      Opposite(d, frac);
    }
  }

  /** Samples within [-1, 1] never reach the clamp. */
  lemma ClampIsNeverReached(step: real, xs: seq<real>, k: nat, m: nat)
    requires (forall i :: 0 <= i < |xs| ==> -1.0 <= xs[i] <= 1.0)
    requires m < |xs| && InInterval(Position(step, k), m)
    ensures var v := Line(Sample(xs, m - 1), xs[m], Position(step, k) - (m as real - 1.0)); Clamp(v) == v
  {
    BetweenStays(Sample(xs, m - 1), xs[m], Position(step, k) - (m as real - 1.0));
  }
}

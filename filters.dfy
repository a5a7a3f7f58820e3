/**
 * The smoothing filters of ExoDisplay.py: a single-pole low-pass filter and the
 * velocity-adaptive "one euro" filter built from two of them.
 *
 * The blend coefficient `__alpha` (a formula in the sampling frequency, the cutoff
 * and pi) is not reproduced: a one-euro filter carries it as an opaque function
 * `alphaOf(freq, cutoff)`, and the low-pass filter checks whatever it yields exactly
 * as `__setAlpha` does.
 */
module Filters {
  import opened Wrappers

  /** The `ValueError`s the two filters raise. */
  datatype FilterError =
    | FreqNotPositive
    | MincutoffNotPositive
    | DcutoffNotPositive
    | AlphaOutOfRange(alpha: real)

  /** The range `__setAlpha` accepts: (0, 1]. */
  predicate ValidAlpha(alpha: real) {
    0.0 < alpha <= 1.0
  }

  function Abs(x: real): real {
    if x < 0.0 then -x else x
  }

  /**
   * One low-pass step. Without a previous output the sample passes through
   * unchanged; otherwise it is blended with the previous output `prev`.
   */
  function Smooth(prev: Option<real>, alpha: real, value: real): real {
    match prev
    case None => value
    case Some(s) => alpha * value + (1.0 - alpha) * s
  }

  /** A blended output lies between the previous output and the new sample. */
  lemma SmoothBetween(s: real, alpha: real, value: real)
    requires ValidAlpha(alpha)
    ensures var r := Smooth(Some(s), alpha, value);
            (s <= value ==> s <= r <= value) && (value <= s ==> value <= r <= s)
  {
    var r := Smooth(Some(s), alpha, value);
    assert r - s == alpha * (value - s);
    assert value - r == (1.0 - alpha) * (value - s);
    if s <= value {
      MulNonneg(alpha, value - s);
      MulNonneg(1.0 - alpha, value - s);
    } else {
      MulNonneg(alpha, s - value);
      MulNonneg(1.0 - alpha, s - value);
    }
  }

  /** A blend shrinks the distance to the sample by the factor 1 - alpha. */
  lemma SmoothDistance(s: real, alpha: real, value: real)
    requires ValidAlpha(alpha)
    ensures Abs(Smooth(Some(s), alpha, value) - value) == (1.0 - alpha) * Abs(s - value)
  {
    var r := Smooth(Some(s), alpha, value);
    assert r - value == (1.0 - alpha) * (s - value);
    if s - value < 0.0 {
      MulNonneg(1.0 - alpha, value - s);
      assert (1.0 - alpha) * (s - value) == -((1.0 - alpha) * (value - s));
    } else {
      MulNonneg(1.0 - alpha, s - value);
    }
  }

  /** The output after feeding the same sample `value` to a filter n more times. */
  function SmoothRepeat(s: real, alpha: real, value: real, n: nat): real
    decreases n
  {
    if n == 0 then s else SmoothRepeat(Smooth(Some(s), alpha, value), alpha, value, n - 1)
  }

  /**
   * On a constant input the output converges to that input: after n further
   * calls the distance has shrunk at least by the factor 1 / (1 + n * alpha).
   */
  lemma {:induction false} ConstantInputConverges(s: real, alpha: real, value: real, n: nat)
    requires ValidAlpha(alpha)
    ensures Abs(SmoothRepeat(s, alpha, value, n) - value) * (1.0 + n as real * alpha) <= Abs(s - value)
    decreases n
  {
    if n > 0 {
      var s1 := Smooth(Some(s), alpha, value);
      SmoothDistance(s, alpha, value);
      ConstantInputConverges(s1, alpha, value, n - 1);
      ConvergeStep(Abs(SmoothRepeat(s1, alpha, value, n - 1) - value), Abs(s - value), n, alpha);
    }
  }

  /** One induction step of ConstantInputConverges: a further blend adds alpha to the factor. */
  lemma ConvergeStep(e: real, d: real, n: nat, alpha: real)
    requires n > 0 && e >= 0.0 && d >= 0.0 && ValidAlpha(alpha)
    requires e * (1.0 + (n - 1) as real * alpha) <= (1.0 - alpha) * d
    ensures e * (1.0 + n as real * alpha) <= d
  {
    var k := (n - 1) as real * alpha;
    MulNonneg((n - 1) as real, alpha);
    assert n as real * alpha == k + alpha;
    ConvergeArith(e, d, k, alpha);
  }

  /** The arithmetic of ConvergeStep. */
  lemma ConvergeArith(e: real, d: real, k: real, alpha: real)
    requires e >= 0.0 && d >= 0.0 && k >= 0.0 && ValidAlpha(alpha)
    requires e * (1.0 + k) <= (1.0 - alpha) * d
    ensures e * (1.0 + k + alpha) <= d
  {
    var q := (1.0 - alpha) * d;
    MulNonneg(e, k);
    assert e * (1.0 + k) == e + e * k;
    MulLe(e, q, alpha);
    assert e * (1.0 + k + alpha) == e * (1.0 + k) + e * alpha;
    MulNonneg(alpha * alpha, d);
    assert q + q * alpha == d - alpha * alpha * d;
  }

  lemma MulNonneg(a: real, b: real)
    requires a >= 0.0 && b >= 0.0
    ensures a * b >= 0.0
  {
  }

  lemma MulLe(a: real, b: real, c: real)
    requires a <= b && c >= 0.0
    ensures a * c <= b * c
  {
    MulNonneg(b - a, c);
  }

  /** Sampling frequency after a call: `1/time_passed` when `time_passed` is truthy. */
  function NextFreq(freq: real, timePassed: real): real {
    if timePassed != 0.0 then 1.0 / timePassed else freq
  }

  /** The derivative input: 0.0 on the first call, else the change scaled by the frequency. */
  function Derivative(prev: Option<real>, value: real, freq: real): real {
    if prev.None? then 0.0 else (value - prev.value) * freq
  }

  /** The adaptive cutoff: the minimum cutoff raised by beta times the speed estimate. */
  function Cutoff(mincutoff: real, beta: real, edx: real): real {
    mincutoff + beta * Abs(edx)
  }

  /** With a non-negative beta, faster motion never lowers the cutoff below the minimum or a slower motion's cutoff. */
  lemma CutoffRisesWithSpeed(mincutoff: real, beta: real, slow: real, fast: real)
    requires beta >= 0.0 && Abs(slow) <= Abs(fast)
    ensures mincutoff <= Cutoff(mincutoff, beta, slow) <= Cutoff(mincutoff, beta, fast)
  {
    assert beta * Abs(slow) <= beta * Abs(fast);
  }

  /**
   * The outcome of one one-euro `__call__` on `value`, from the state before it:
   * the sampling frequency `freq`, the position filter's last input `xy` and
   * output `xs`, and the speed filter's last output `dxs`.
   */
  function EuroStep(freq: real, xy: Option<real>, xs: Option<real>, dxs: Option<real>,
                    mincutoff: real, beta: real, dcutoff: real, alphaOf: (real, real) -> real,
                    value: real, timePassed: real): Result<real, FilterError>
  {
    var f := NextFreq(freq, timePassed);
    var da := alphaOf(f, dcutoff);
    if !ValidAlpha(da) then Err(AlphaOutOfRange(da))
    else
      var xa := alphaOf(f, Cutoff(mincutoff, beta, Smooth(dxs, da, Derivative(xy, value, f))));
      if !ValidAlpha(xa) then Err(AlphaOutOfRange(xa))
      else Ok(Smooth(xs, xa, value))
  }

  /**
   * A successful one-euro step passes the first sample through and afterwards
   * lands between the previous output and the new sample; a failed one names an
   * alpha outside (0, 1].
   */
  lemma EuroStepStaysBetween(freq: real, xy: Option<real>, xs: Option<real>, dxs: Option<real>,
                             mincutoff: real, beta: real, dcutoff: real, alphaOf: (real, real) -> real,
                             value: real, timePassed: real)
    ensures var r := EuroStep(freq, xy, xs, dxs, mincutoff, beta, dcutoff, alphaOf, value, timePassed);
            && (r.Ok? && xs.None? ==> r.value == value)
            && (r.Ok? && xs.Some? && xs.value <= value ==> xs.value <= r.value <= value)
            && (r.Ok? && xs.Some? && value <= xs.value ==> value <= r.value <= xs.value)
            && (r.Err? ==> r.error.AlphaOutOfRange? && !ValidAlpha(r.error.alpha))
  {
    var f := NextFreq(freq, timePassed);
    var da := alphaOf(f, dcutoff);
    if ValidAlpha(da) {
      var xa := alphaOf(f, Cutoff(mincutoff, beta, Smooth(dxs, da, Derivative(xy, value, f))));
      if ValidAlpha(xa) && xs.Some? {
        SmoothBetween(xs.value, xa, value);
      }
    }
  }

  /** The first check of `OneEuroFilter.__init__` that fails, in the order the source makes them. */
  function ConfigError(freq: real, mincutoff: real, beta: real, dcutoff: real,
                       alphaOf: (real, real) -> real): (e: Option<FilterError>)
    ensures e.None? <==> (freq > 0.0 && mincutoff > 0.0 && dcutoff > 0.0
                          && ValidAlpha(alphaOf(freq, mincutoff)) && ValidAlpha(alphaOf(freq, dcutoff)))
    ensures freq <= 0.0 ==> e == Some(FreqNotPositive)
    ensures e.Some? && e.value.AlphaOutOfRange? ==> !ValidAlpha(e.value.alpha)
  {
    if freq <= 0.0 then Some(FreqNotPositive)
    else if mincutoff <= 0.0 then Some(MincutoffNotPositive)
    else if dcutoff <= 0.0 then Some(DcutoffNotPositive)
    else if !ValidAlpha(alphaOf(freq, mincutoff)) then Some(AlphaOutOfRange(alphaOf(freq, mincutoff)))
    else if !ValidAlpha(alphaOf(freq, dcutoff)) then Some(AlphaOutOfRange(alphaOf(freq, dcutoff)))
    else None
  }

  /** `beta` takes no part in the constructor's checks. */
  lemma BetaNotChecked(freq: real, mincutoff: real, b1: real, b2: real, dcutoff: real,
                       alphaOf: (real, real) -> real)
    ensures ConfigError(freq, mincutoff, b1, dcutoff, alphaOf) == ConfigError(freq, mincutoff, b2, dcutoff, alphaOf)
  {
  }

  /** `LowPassFilter`: `y` is the last raw input, `s` the last output; both start as `None`. */
  class LowPassFilter {
    var alpha: real
    var y: Option<real>
    var s: Option<real>

    ghost predicate Valid()
      reads this
    {
      ValidAlpha(alpha) && (y.Some? <==> s.Some?)
    }

    constructor (alpha: real)
      requires ValidAlpha(alpha)
      ensures Valid() && this.alpha == alpha && y == None && s == None
    {
      this.alpha := alpha;
      y, s := None, None;
    }

    /** The constructor with its check: an alpha outside (0, 1] raises. */
    static method Create(alpha: real) returns (r: Result<LowPassFilter, FilterError>)
      ensures r.Ok? <==> ValidAlpha(alpha)
      ensures r.Err? ==> r.error == AlphaOutOfRange(alpha)
      ensures r.Ok? ==> fresh(r.value) && r.value.Valid() && r.value.alpha == alpha && r.value.y == None
    {
      if !ValidAlpha(alpha) {
        return Err(AlphaOutOfRange(alpha));
      }
      var f := new LowPassFilter(alpha);
      return Ok(f);
    }

    /** `lastValue()`: the last raw input, not the smoothed output. */
    function LastValue(): Option<real>
      reads this
    {
      y
    }

    /**
     * `__call__`: a new alpha, when given, is checked before anything changes;
     * then the output is the blend of `value` with the previous output.
     */
    method Call(value: real, newAlpha: Option<real>) returns (r: Result<real, FilterError>)
      requires Valid()
      modifies this
      ensures Valid()
      ensures var a := newAlpha.GetOr(old(alpha));
              if ValidAlpha(a) then
                alpha == a && y == Some(value) && s == Some(Smooth(old(s), a, value))
                && r == Ok(Smooth(old(s), a, value))
              else
                r == Err(AlphaOutOfRange(a)) && unchanged(this)
    {
      if newAlpha.Some? {
        if !ValidAlpha(newAlpha.value) {
          return Err(AlphaOutOfRange(newAlpha.value));
        }
        alpha := newAlpha.value;
      }
      var out := Smooth(s, alpha, value);
      y := Some(value);
      s := Some(out);
      r := Ok(out);
    }
  }

  /** `OneEuroFilter`: a position filter `x` whose cutoff follows a filtered speed `dx`. */
  class OneEuroFilter {
    var freq: real
    const mincutoff: real
    const beta: real
    const dcutoff: real
    /** `__alpha`: the blend coefficient for a sampling frequency and a cutoff. */
    const alphaOf: (real, real) -> real
    const x: LowPassFilter
    const dx: LowPassFilter
    ghost const Repr: set<object>

    ghost predicate Valid()
      reads Repr
    {
      && Repr == {this, x, dx}
      && x != dx
      && x.Valid() && dx.Valid()
    }

    constructor (freq: real, mincutoff: real, beta: real, dcutoff: real, alphaOf: (real, real) -> real)
      requires ConfigError(freq, mincutoff, beta, dcutoff, alphaOf).None?
      ensures Valid() && fresh(Repr)
      ensures this.freq == freq && this.mincutoff == mincutoff && this.beta == beta
      ensures this.dcutoff == dcutoff && this.alphaOf == alphaOf
      ensures x.alpha == alphaOf(freq, mincutoff) && dx.alpha == alphaOf(freq, dcutoff)
      ensures x.y == None && dx.y == None
    {
      this.freq := freq;
      this.mincutoff := mincutoff;
      this.beta := beta;
      this.dcutoff := dcutoff;
      this.alphaOf := alphaOf;
      var lx := new LowPassFilter(alphaOf(freq, mincutoff));
      var ldx := new LowPassFilter(alphaOf(freq, dcutoff));
      x := lx;
      dx := ldx;
      Repr := {this, lx, ldx};
    }

    /** The constructor with its checks: the first failing one raises. */
    static method Create(freq: real, mincutoff: real, beta: real, dcutoff: real,
                         alphaOf: (real, real) -> real) returns (r: Result<OneEuroFilter, FilterError>)
      ensures r.Err? <==> ConfigError(freq, mincutoff, beta, dcutoff, alphaOf).Some?
      ensures r.Err? ==> r.error == ConfigError(freq, mincutoff, beta, dcutoff, alphaOf).value
      ensures r.Ok? ==> fresh(r.value.Repr) && r.value.Valid() && r.value.freq == freq
                             && r.value.x.y == None && r.value.dx.y == None
    {
      var e := ConfigError(freq, mincutoff, beta, dcutoff, alphaOf);
      if e.Some? {
        return Err(e.value);
      }
      var f := new OneEuroFilter(freq, mincutoff, beta, dcutoff, alphaOf);
      return Ok(f);
    }

    /**
     * `__call__`: update the frequency, filter the derivative, derive the cutoff
     * from it, then filter the sample. Either low-pass step may reject its alpha;
     * whatever changed before that stays changed.
     */
    method Call(value: real, timePassed: real) returns (r: Result<real, FilterError>)
      requires Valid()
      modifies Repr
      ensures Valid()
      ensures freq == NextFreq(old(freq), timePassed)
      ensures r == EuroStep(old(freq), old(x.y), old(x.s), old(dx.s), mincutoff, beta, dcutoff, alphaOf, value, timePassed)
      ensures var d := Derivative(old(x.y), value, freq);
              var da := alphaOf(freq, dcutoff);
              if !ValidAlpha(da) then
                r == Err(AlphaOutOfRange(da)) && unchanged(x, dx)
              else
                var edx := Smooth(old(dx.s), da, d);
                var xa := alphaOf(freq, Cutoff(mincutoff, beta, edx));
                dx.alpha == da && dx.y == Some(d) && dx.s == Some(edx)
                && if !ValidAlpha(xa) then
                     r == Err(AlphaOutOfRange(xa)) && unchanged(x)
                   else
                     x.alpha == xa && x.y == Some(value) && x.s == Some(Smooth(old(x.s), xa, value))
                     && r == Ok(Smooth(old(x.s), xa, value))
    {
      if timePassed != 0.0 {
        freq := 1.0 / timePassed;
      }
      var prevX := x.LastValue();
      var d := if prevX.None? then 0.0 else (value - prevX.value) * freq;
      var edx := dx.Call(d, Some(alphaOf(freq, dcutoff)));
      if edx.Err? {
        return Err(edx.error);
      }
      var cutoff := mincutoff + beta * Abs(edx.value);
      assert d == Derivative(old(x.y), value, freq);
      assert dx.y == Some(d);
      assert edx.value == Smooth(old(dx.s), alphaOf(freq, dcutoff), d);
      assert cutoff == Cutoff(mincutoff, beta, edx.value);
      r := x.Call(value, Some(alphaOf(freq, cutoff)));
    }
  }
}

/*
 * Helpers shared by the amplifier stages (src/amp/stages/common.rs): the
 * decibel conversion, one-pole smoothing coefficients, a DC blocker and a
 * peak envelope follower with separate attack and release.
 */
module StageCommon {
  import opened Common
  import opened MathLib

  /** db_to_lin: 10^(db/20), always a positive gain. */
  function DbToLin(m: MathLib, db: real): (g: real)
    requires Lawful(m)
    ensures g > 0.0
  {
    m.pow(10.0, db / 20.0)
  }

  /** The parameter read-back: 20·log10 of a gain. */
  function LinToDb(m: MathLib, g: real): real {
    20.0 * m.log10(g)
  }

  /** A level stored as a linear gain reads back as the decibels it was set from. */
  lemma DbRoundTrip(m: MathLib, db: real)
    requires Lawful(m)
    ensures LinToDb(m, DbToLin(m, db)) == db
  {
    assert m.log10(m.pow(10.0, db / 20.0)) == db / 20.0;
  }

  /**
   * calculate_coefficient: exp(-1 / (sample_rate · 0.001 · time_ms)). A zero
   * denominator makes the exponent -infinity and the coefficient 0.
   */
  function CalculateCoefficient(m: MathLib, timeMs: real, sampleRate: real): (c: real)
    requires Lawful(m)
    ensures c >= 0.0
    ensures sampleRate > 0.0 && timeMs > 0.0 ==> 0.0 < c < 1.0
  {
    var d := sampleRate * 0.001 * timeMs;
    if d == 0.0 then 0.0 else m.exp(-1.0 / d)
  }

  /** A one-pole coefficient: how much of the previous value survives each sample. */
  predicate IsCoefficient(c: real) {
    0.0 <= c <= 1.0
  }

  /** One step of the follower: attack when the input's magnitude rises above the envelope, release otherwise. */
  function EnvelopeStep(envelope: real, attack: real, release: real, input: real): real {
    var a := Abs(input);
    if a > envelope then OnePole(attack, envelope, a) else OnePole(release, envelope, a)
  }

  /**
   * The new envelope lies between the old envelope and the input's
   * magnitude, so it never overshoots either and stays non-negative.
   */
  lemma EnvelopeStepBetween(envelope: real, attack: real, release: real, input: real)
    requires IsCoefficient(attack) && IsCoefficient(release)
    ensures var e := EnvelopeStep(envelope, attack, release, input);
      Min(envelope, Abs(input)) <= e <= Max(envelope, Abs(input))
    ensures envelope >= 0.0 ==> EnvelopeStep(envelope, attack, release, input) >= 0.0
  {
    var a := Abs(input);
    if a > envelope {
      Blend(attack, envelope, a);
    } else {
      Blend(release, envelope, a);
    }
  }

  /** The magnitude below which the delay line and the power amp's sag envelope store an exact zero. */
  const DENORMAL_THRESHOLD: real := 0.00000000000000000001

  /** Values too small to matter are stored as exact zeros; anything else is kept as it is. */
  function FlushDenormal(v: real): (r: real)
    ensures r == 0.0 <==> Abs(v) < DENORMAL_THRESHOLD
    ensures r == 0.0 || r == v
    ensures Abs(r) <= Abs(v)
  {
    if Abs(v) < DENORMAL_THRESHOLD then 0.0 else v
  }

  /** One step of one-pole smoothing: keep `c` of the current value and move the rest of the way to the target. */
  function OnePole(c: real, current: real, target: real): real {
    c * current + (1.0 - c) * target
  }

  /** The fused form `c.mul_add(current - target, target)` is the same one-pole step. */
  lemma MulAddIsOnePole(c: real, current: real, target: real)
    ensures MulAdd(c, current - target, target) == OnePole(c, current, target)
  {
    assert c * (current - target) == c * current - c * target;
  }

  /** A one-pole blend c·u + (1 - c)·v lies between u and v. */
  lemma Blend(c: real, u: real, v: real)
    requires IsCoefficient(c)
    ensures Min(u, v) <= OnePole(c, u, v) <= Max(u, v)
  {
    var p := c * u + (1.0 - c) * v;
    var d := u - v;
    assert p == v + c * d;
    if d >= 0.0 {
      ScaleBetween(c, d);
      assert v <= p <= u;
    } else {
      ScaleBetween(c, -d);
      assert c * d == -(c * -d);
      assert u <= p <= v;
    }
  }

  /** Scaling a non-negative amount by a coefficient keeps it between zero and itself. */
  lemma ScaleBetween(c: real, d: real)
    requires IsCoefficient(c) && d >= 0.0
    ensures 0.0 <= c * d <= d
  {
    assert d - c * d == (1.0 - c) * d;
  }

  /** A steady input magnitude is a fixed point of the follower. */
  lemma EnvelopeSettles(attack: real, release: real, input: real)
    ensures EnvelopeStep(Abs(input), attack, release, input) == Abs(input)
  {
  }

  class EnvelopeFollower {
    var envelope: real
    var attackCoeff: real
    var releaseCoeff: real

    /** new: from precomputed coefficients, starting at zero. */
    constructor (attackCoeff: real, releaseCoeff: real)
      ensures envelope == 0.0 && this.attackCoeff == attackCoeff && this.releaseCoeff == releaseCoeff
    {
      envelope := 0.0;
      this.attackCoeff := attackCoeff;
      this.releaseCoeff := releaseCoeff;
    }

    /** from_ms: coefficients from attack and release times. */
    constructor FromMs(m: MathLib, attackMs: real, releaseMs: real, sampleRate: real)
      requires Lawful(m)
      ensures envelope == 0.0
      ensures attackCoeff == CalculateCoefficient(m, attackMs, sampleRate)
      ensures releaseCoeff == CalculateCoefficient(m, releaseMs, sampleRate)
    {
      envelope := 0.0;
      attackCoeff := CalculateCoefficient(m, attackMs, sampleRate);
      releaseCoeff := CalculateCoefficient(m, releaseMs, sampleRate);
    }

    method SetAttackCoeff(c: real)
      modifies this`attackCoeff
      ensures attackCoeff == c
    {
      attackCoeff := c;
    }

    method SetReleaseCoeff(c: real)
      modifies this`releaseCoeff
      ensures releaseCoeff == c
    {
      releaseCoeff := c;
    }

    function Value(): real
      reads this
    {
      envelope
    }

    /** process: one follower step; the new envelope is also the result. */
    method Process(input: real) returns (e: real)
      modifies this`envelope
      ensures e == envelope == EnvelopeStep(old(envelope), attackCoeff, releaseCoeff, input)
      ensures IsCoefficient(attackCoeff) && IsCoefficient(releaseCoeff) ==>
        Min(old(envelope), Abs(input)) <= e <= Max(old(envelope), Abs(input))
    {
      var a := Abs(input);
      if a > envelope {
        envelope := attackCoeff * envelope + (1.0 - attackCoeff) * a;
      } else {
        envelope := releaseCoeff * envelope + (1.0 - releaseCoeff) * a;
      }
      e := envelope;
      if IsCoefficient(attackCoeff) && IsCoefficient(releaseCoeff) {
        EnvelopeStepBetween(old(envelope), attackCoeff, releaseCoeff, input);
      }
    }
  }

  /** coeff^n. */
  function Power(c: real, n: nat): real {
    if n == 0 then 1.0 else c * Power(c, n - 1)
  }

  /** The DC blocker's difference equation y[n] = x[n] - x[n-1] + R·y[n-1] over a block. */
  function DcBlockRun(coeff: real, xPrev: real, yPrev: real, xs: seq<real>): (ys: seq<real>)
    ensures |ys| == |xs|
    decreases |xs|
  {
    if xs == [] then []
    else
      var y := coeff * yPrev + (xs[0] - xPrev);
      [y] + DcBlockRun(coeff, xs[0], y, xs[1..])
  }

  /**
   * With the input held at a constant level the blocker's output decays
   * geometrically by the coefficient each sample: the constant (DC) part of
   * the signal is removed.
   */
  lemma {:induction false} DcBlockDecays(coeff: real, level: real, yPrev: real, xs: seq<real>, k: nat)
    requires forall i :: 0 <= i < |xs| ==> xs[i] == level
    requires k < |xs|
    ensures DcBlockRun(coeff, level, yPrev, xs)[k] == Power(coeff, k + 1) * yPrev
    decreases k
  {
    if k > 0 {
      var y := coeff * yPrev;
      DcBlockDecays(coeff, level, y, xs[1..], k - 1);
      assert Power(coeff, k) * y == Power(coeff, k + 1) * yPrev;
    }
  }

  class DcBlocker {
    var xPrev: real
    var yPrev: real
    var coeff: real

    /** new: R = exp(-2π·cutoff/sample_rate), both histories zero. */
    constructor (m: MathLib, cutoffHz: real, sampleRate: real)
      requires Lawful(m) && sampleRate != 0.0
      ensures xPrev == 0.0 && yPrev == 0.0
      ensures coeff == m.exp(-2.0 * PI * cutoffHz / sampleRate)
      ensures cutoffHz > 0.0 && sampleRate > 0.0 ==> 0.0 < coeff < 1.0
    {
      xPrev := 0.0;
      yPrev := 0.0;
      coeff := m.exp(-2.0 * PI * cutoffHz / sampleRate);
      if cutoffHz > 0.0 && sampleRate > 0.0 {
        assert -2.0 * PI * cutoffHz / sampleRate < 0.0;
      }
    }

    /** process: one sample of the difference equation; the blocker remembers this input and output. */
    method Process(input: real) returns (output: real)
      modifies this`xPrev, this`yPrev
      ensures [output] == DcBlockRun(coeff, old(xPrev), old(yPrev), [input])
      ensures xPrev == input && yPrev == output
    {
      output := coeff * yPrev + (input - xPrev);
      assert [input][1..] == [];
      assert DcBlockRun(coeff, xPrev, yPrev, [input]) == [output] + DcBlockRun(coeff, input, output, []);
      xPrev := input;
      yPrev := output;
    }
  }
}

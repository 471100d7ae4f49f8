/*
 * The floating-point library calls the audio code makes (exp, tanh, powf,
 * log10, log2, sqrt, cos, sin). Their exact values are outside this model: a
 * MathLib bundles them as function values, and `Lawful` states the only
 * facts about them that the model's properties rely on.
 */
module MathLib {

  /** f32::consts::PI as an exact real. */
  const PI: real := 3.14159265358979

  datatype MathLib = MathLib(
    exp: real -> real,
    tanh: real -> real,
    pow: (real, real) -> real,
    log10: real -> real,
    log2: real -> real,
    sqrt: real -> real,
    cos: real -> real,
    sin: real -> real)

  ghost predicate Lawful(m: MathLib) {
    && (forall x :: m.exp(x) > 0.0)
    && (forall x :: x < 0.0 ==> m.exp(x) < 1.0)
    && (forall x :: x > 0.0 ==> m.exp(x) > 1.0)
    && (forall x :: -1.0 < m.tanh(x) < 1.0)
    && (forall x :: x > 0.0 ==> m.tanh(x) > 0.0)
    && (forall x :: x < 0.0 ==> m.tanh(x) < 0.0)
    && m.tanh(0.0) == 0.0
    && (forall b, e :: b > 0.0 ==> m.pow(b, e) > 0.0)
    && (forall b, e :: b >= 1.0 && e <= 0.0 ==> m.pow(b, e) <= 1.0)
    && (forall x :: m.log10(m.pow(10.0, x)) == x)
    && m.log2(1.0) == 0.0
    && (forall x :: m.sqrt(x) >= 0.0)
    && m.sqrt(0.0) == 0.0
    && (forall x :: -1.0 <= m.cos(x) <= 1.0)
    && m.cos(PI) == -1.0
    && (forall x :: -1.0 <= m.sin(x) <= 1.0)
  }

  /** A rational stand-in for exp used only to show the laws can all hold together. */
  function RationalExp(x: real): (y: real)
    ensures y > 0.0
  {
    if x < 0.0 then 1.0 / (1.0 - x) else 1.0 + x
  }

  function RationalLog(y: real): real {
    if y <= 0.0 then 0.0 else if y < 1.0 then 1.0 - 1.0 / y else y - 1.0
  }

  function Witness(): MathLib {
    MathLib(
      RationalExp,
      x => x / (1.0 + (if x < 0.0 then -x else x)),
      (b, e) => RationalExp(e),
      RationalLog,
      y => y - 1.0,
      x => 0.0,
      x => if x == PI then -1.0 else 1.0,
      x => 0.0)
  }

  lemma WitnessExpLaws()
    ensures var m := Witness();
      && (forall x :: m.exp(x) > 0.0)
      && (forall x :: x < 0.0 ==> m.exp(x) < 1.0)
      && (forall x :: x > 0.0 ==> m.exp(x) > 1.0)
  {
  }

  lemma WitnessTanhLaws()
    ensures var m := Witness();
      && (forall x :: -1.0 < m.tanh(x) < 1.0)
      && (forall x :: x > 0.0 ==> m.tanh(x) > 0.0)
      && (forall x :: x < 0.0 ==> m.tanh(x) < 0.0)
      && m.tanh(0.0) == 0.0
  {
    var m := Witness();
    forall x ensures -1.0 < m.tanh(x) < 1.0 {
      var a := if x < 0.0 then -x else x;
      assert m.tanh(x) == x / (1.0 + a);
      assert a < 1.0 + a;
    }
  }

  lemma WitnessPowLogLaws()
    ensures var m := Witness();
      && (forall b, e :: b > 0.0 ==> m.pow(b, e) > 0.0)
      && (forall b, e :: b >= 1.0 && e <= 0.0 ==> m.pow(b, e) <= 1.0)
      && (forall x :: m.log10(m.pow(10.0, x)) == x)
      && m.log2(1.0) == 0.0
  {
    var m := Witness();
    forall x ensures m.log10(m.pow(10.0, x)) == x {
      if x < 0.0 {
        assert RationalExp(x) == 1.0 / (1.0 - x);
        assert 1.0 / RationalExp(x) == 1.0 - x;
      }
    }
  }

  /** The laws are consistent: some library satisfies every one of them. */
  lemma WitnessIsLawful()
    ensures Lawful(Witness())
  {
    WitnessExpLaws();
    WitnessTanhLaws();
    WitnessPowLogLaws();
  }
}

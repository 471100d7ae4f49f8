/*
 * The power amp stage (src/amp/stages/poweramp.rs): the drive is reduced
 * by a sag envelope that follows the driven signal, and the driven signal
 * is shaped by tanh with a class-dependent asymmetry.
 */
module PowerAmp {
  import opened Common
  import opened MathLib
  import opened StageCommon

  datatype PowerAmpType = ClassA | ClassAB | ClassB

  /** The sag envelope's attack and release times, in milliseconds. */
  const SAG_ATTACK_MS: real := 2.0
  const SAG_RELEASE_MS: real := 50.0

  /** How much of the drive survives the sag: 1 - min(sag·envelope·0.5, 0.5). */
  function SagAmount(sag: real, envelope: real): (a: real)
    ensures a >= 0.5
  {
    1.0 - Min(sag * envelope * 0.5, 0.5)
  }

  /**
   * With a non-negative sag and envelope the sag keeps between half and all
   * of the drive: the dynamic drive never exceeds the set drive.
   */
  lemma DynamicDriveBounded(drive: real, sag: real, envelope: real)
    requires 0.0 <= drive && 0.0 <= sag && 0.0 <= envelope
    ensures 0.5 <= SagAmount(sag, envelope) <= 1.0
    ensures drive * 0.5 <= DynamicDrive(drive, sag, envelope) <= drive
  {
    MulMono(0.0, envelope, sag);
    var a := SagAmount(sag, envelope);
    ScaleBetween(a, drive);
    MulMono(0.5, a, drive);
  }

  /** The drive after sag: drive · sag_amount. */
  function DynamicDrive(drive: real, sag: real, envelope: real): real {
    drive * SagAmount(sag, envelope)
  }

  /** The driven signal: the input amplified by 1 + 3·dynamic drive. */
  function Driven(input: real, dynamicDrive: real): real {
    input * (1.0 + dynamicDrive * 3.0)
  }

  /** A non-negative drive only amplifies: the driven signal keeps the input's sign and is at least as large. */
  lemma DrivenKeepsSign(input: real, dynamicDrive: real)
    requires dynamicDrive >= 0.0
    ensures input > 0.0 ==> Driven(input, dynamicDrive) >= input > 0.0
    ensures input < 0.0 ==> Driven(input, dynamicDrive) <= input < 0.0
    ensures input == 0.0 ==> Driven(input, dynamicDrive) == 0.0
  {
    var g := 1.0 + dynamicDrive * 3.0;
    if input > 0.0 {
      MulMono(1.0, g, input);
    } else if input < 0.0 {
      MulMono(1.0, g, -input);
    }
  }

  /** The class AB crossover deadzone x³/(x² + 0.1²). */
  function Crossover(x: real): real {
    var x2 := x * x;
    x * x2 / MulAdd(0.1, 0.1, x2)
  }

  /** The crossover keeps the sign of its input. */
  lemma CrossoverSign(x: real)
    ensures x > 0.0 ==> Crossover(x) > 0.0
    ensures x < 0.0 ==> Crossover(x) < 0.0
    ensures x == 0.0 ==> Crossover(x) == 0.0
  {
    var x2 := x * x;
    var d := MulAdd(0.1, 0.1, x2);
    assert x2 >= 0.0;
    assert d > 0.0;
    if x > 0.0 {
      assert x * x2 > 0.0 by { MulMono(0.0, x, x); }
    } else if x < 0.0 {
      assert -x * x2 > 0.0 by { MulMono(0.0, -x, -x); }
    }
  }

  /**
   * The output shaping: tanh of the driven signal, with a reduced gain on
   * the negative half (0.8 for class A, 0.7 for class B) and, for class AB,
   * the crossover deadzone first and 0.9 on the negative half.
   */
  function Shape(m: MathLib, t: PowerAmpType, driven: real): (y: real)
    requires Lawful(m)
    ensures -1.0 < y < 1.0
    ensures driven > 0.0 ==> y > 0.0
    ensures driven < 0.0 ==> y < 0.0
    ensures driven == 0.0 ==> y == 0.0
  {
    CrossoverSign(driven);
    match t
    case ClassA => if driven >= 0.0 then m.tanh(driven) else m.tanh(driven * 0.8)
    case ClassAB =>
      var c := Crossover(driven);
      if c >= 0.0 then m.tanh(c) else m.tanh(c * 0.9)
    case ClassB => if driven >= 0.0 then m.tanh(driven) else m.tanh(driven * 0.7)
  }

  /**
   * The sag envelope's update: `coeff.mul_add(env - |driven|, |driven|)`
   * with the attack coefficient while the driven level rises above the
   * envelope, the release coefficient otherwise, then denormals flushed.
   */
  function SagStep(envelope: real, attack: real, release: real, driven: real): (e: real)
    ensures e == FlushDenormal(EnvelopeStep(envelope, attack, release, driven))
  {
    var a := Abs(driven);
    MulAddIsOnePole(attack, envelope, a);
    MulAddIsOnePole(release, envelope, a);
    var next :=
      if a > envelope then MulAdd(attack, envelope - a, a)
      else MulAdd(release, envelope - a, a);
    FlushDenormal(next)
  }

  /** The sag envelope stays non-negative and never overshoots the driven level or its old value. */
  lemma SagStepBetween(envelope: real, attack: real, release: real, driven: real)
    requires IsCoefficient(attack) && IsCoefficient(release) && envelope >= 0.0
    ensures 0.0 <= SagStep(envelope, attack, release, driven) <= Max(envelope, Abs(driven))
  {
    EnvelopeStepBetween(envelope, attack, release, driven);
  }

  class PowerAmpStage {
    var drive: real
    var ampType: PowerAmpType
    var sag: real
    var sagEnvelope: real
    var sagAttackCoeff: real
    var sagReleaseCoeff: real

    ghost predicate Valid()
      reads this
    {
      && 0.0 <= drive <= 1.0
      && 0.0 <= sag <= 1.0
      && sagEnvelope >= 0.0
      && IsCoefficient(sagAttackCoeff) && IsCoefficient(sagReleaseCoeff)
    }

    /** new: drive and sag clamped to [0, 1], envelope at rest, 2 ms attack and 50 ms release. */
    constructor (m: MathLib, drive: real, ampType: PowerAmpType, sag: real, sampleRate: real)
      requires Lawful(m)
      ensures this.drive == Clamp(drive, 0.0, 1.0) && this.ampType == ampType
      ensures this.sag == Clamp(sag, 0.0, 1.0) && sagEnvelope == 0.0
      ensures sagAttackCoeff == CalculateCoefficient(m, SAG_ATTACK_MS, sampleRate)
      ensures sagReleaseCoeff == CalculateCoefficient(m, SAG_RELEASE_MS, sampleRate)
      ensures sampleRate > 0.0 ==> Valid()
    {
      this.drive := Clamp(drive, 0.0, 1.0);
      this.ampType := ampType;
      this.sag := Clamp(sag, 0.0, 1.0);
      sagEnvelope := 0.0;
      sagAttackCoeff := CalculateCoefficient(m, SAG_ATTACK_MS, sampleRate);
      sagReleaseCoeff := CalculateCoefficient(m, SAG_RELEASE_MS, sampleRate);
    }

    /**
     * process: drive the input by 1 + 3·drive·sag_amount, update the sag
     * envelope from the driven signal, and shape the driven signal. The
     * output always lies strictly within (-1, 1) and has the input's sign.
     */
    method Process(m: MathLib, input: real) returns (output: real)
      requires Lawful(m) && Valid()
      modifies this`sagEnvelope
      ensures Valid()
      ensures var driven := Driven(input, DynamicDrive(drive, sag, old(sagEnvelope)));
        && sagEnvelope == SagStep(old(sagEnvelope), sagAttackCoeff, sagReleaseCoeff, driven)
        && output == Shape(m, ampType, driven)
      ensures -1.0 < output < 1.0
      ensures input > 0.0 ==> output > 0.0
      ensures input < 0.0 ==> output < 0.0
    {
      var dynamicDrive := DynamicDrive(drive, sag, sagEnvelope);
      DynamicDriveBounded(drive, sag, sagEnvelope);
      var driven := Driven(input, dynamicDrive);
      DrivenKeepsSign(input, dynamicDrive);
      SagStepBetween(sagEnvelope, sagAttackCoeff, sagReleaseCoeff, driven);
      ghost var expected := SagStep(sagEnvelope, sagAttackCoeff, sagReleaseCoeff, driven);
      var drivenAbs := Abs(driven);
      if drivenAbs > sagEnvelope {
        sagEnvelope := MulAdd(sagAttackCoeff, sagEnvelope - drivenAbs, drivenAbs);
      } else {
        sagEnvelope := MulAdd(sagReleaseCoeff, sagEnvelope - drivenAbs, drivenAbs);
      }
      if Abs(sagEnvelope) < DENORMAL_THRESHOLD {
        sagEnvelope := 0.0;
      }
      assert sagEnvelope == expected;
      output := Shape(m, ampType, driven);
    }

    /** set_parameter: drive and sag in [0, 1]; anything else is an error and changes nothing. */
    method SetParameter(name: string, value: real) returns (r: Result<Unit>)
      modifies this`drive, this`sag
      ensures r.Ok? <==> name in {"drive", "sag"} && 0.0 <= value <= 1.0
      ensures r.Ok? ==> GetParameter(name) == Ok(value)
      ensures name == "drive" && r.Ok? ==> sag == old(sag)
      ensures name == "sag" && r.Ok? ==> drive == old(drive)
      ensures r.Err? ==> drive == old(drive) && sag == old(sag)
      ensures name == "drive" && r.Err? ==> r.error == "Drive must be between 0.0 and 1.0"
      ensures name == "sag" && r.Err? ==> r.error == "Sag must be between 0.0 and 1.0"
      ensures name !in {"drive", "sag"} ==> r == Err("Unknown parameter name")
    {
      match name {
        case "drive" =>
          if 0.0 <= value <= 1.0 {
            drive := value;
            r := Ok(Unit);
          } else {
            r := Err("Drive must be between 0.0 and 1.0");
          }
        case "sag" =>
          if 0.0 <= value <= 1.0 {
            sag := value;
            r := Ok(Unit);
          } else {
            r := Err("Sag must be between 0.0 and 1.0");
          }
        case _ =>
          r := Err("Unknown parameter name");
      }
    }

    function GetParameter(name: string): (r: Result<real>)
      reads this
      ensures r.Ok? <==> name in {"drive", "sag"}
      ensures r.Err? ==> r.error == "Unknown parameter name"
    {
      match name
      case "drive" => Ok(drive)
      case "sag" => Ok(sag)
      case _ => Err("Unknown parameter name")
    }
  }
}

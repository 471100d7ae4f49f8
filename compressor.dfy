/*
 * The compressor stage (src/amp/stages/compressor.rs): an envelope
 * follower on the input's magnitude drives a gain reduction of
 * (envelope / threshold)^(1/ratio - 1) above the threshold, followed by a
 * makeup gain. Threshold and makeup are stored as linear gains.
 */
module Compressor {
  import opened Common
  import opened MathLib
  import opened StageCommon

  /** The floor put under the follower's input, keeping the level away from zero. */
  const MIN_LEVEL: real := 0.0000000001

  /**
   * The gain reduction for an envelope level: none at or below the
   * threshold, and (envelope / threshold)^(1/ratio - 1) above it. With a
   * ratio of at least 1 the reduction is a positive gain of at most 1: the
   * compressor only ever turns the signal down.
   */
  function GainReduction(m: MathLib, env: real, threshold: real, ratio: real): (g: real)
    requires Lawful(m) && threshold > 0.0 && ratio != 0.0
    ensures env <= threshold ==> g == 1.0
    ensures ratio >= 1.0 ==> 0.0 < g <= 1.0
  {
    QuotientFacts(env, threshold, ratio);
    var over := Max(env / threshold, 1.0);
    if over > 1.0 then m.pow(over, 1.0 / ratio - 1.0) else 1.0
  }

  lemma QuotientFacts(env: real, threshold: real, ratio: real)
    requires threshold > 0.0 && ratio != 0.0
    ensures env <= threshold ==> env / threshold <= 1.0
    ensures ratio >= 1.0 ==> 1.0 / ratio - 1.0 <= 0.0
  {
    if env <= threshold {
      MulMono(env / threshold, 1.0, threshold);
    }
    if ratio >= 1.0 {
      MulMono(1.0 / ratio, 1.0, ratio);
    }
  }

  /** Scaling by a gain in (0, 1] and then by the makeup is never louder than the makeup alone. */
  lemma ReducedLevel(input: real, g: real, makeup: real)
    requires 0.0 < g <= 1.0 && makeup > 0.0
    ensures Abs(input * g * makeup) <= Abs(input) * makeup
  {
    var a := input * g;
    assert a == g * input;
    AbsScale(g, input);
    MulMono(g, 1.0, Abs(input));
    assert Abs(a) == g * Abs(input);
    assert g * Abs(input) <= 1.0 * Abs(input) == Abs(input);
    assert a * makeup == makeup * a;
    AbsScale(makeup, a);
    MulMono(Abs(a), Abs(input), makeup);
    assert Abs(a * makeup) == Abs(a) * makeup;
  }

  class CompressorStage {
    var attackMs: real
    var releaseMs: real
    var threshold: real
    var ratio: real
    var makeup: real
    const envelope: EnvelopeFollower
    var sampleRate: real

    /** The gains are positive (they come from decibels) and the ratio can be divided by. */
    ghost predicate Valid()
      reads this
    {
      threshold > 0.0 && makeup > 0.0 && ratio != 0.0
    }

    /** new: threshold and makeup converted from decibels, the follower built from the attack and release times. */
    constructor (m: MathLib, attackMs: real, releaseMs: real, thresholdDb: real, ratio: real, makeupDb: real, sampleRate: real)
      requires Lawful(m)
      ensures this.attackMs == attackMs && this.releaseMs == releaseMs && this.ratio == ratio
      ensures threshold == DbToLin(m, thresholdDb) && makeup == DbToLin(m, makeupDb)
      ensures this.sampleRate == sampleRate && fresh(envelope)
      ensures envelope.envelope == 0.0
      ensures envelope.attackCoeff == CalculateCoefficient(m, attackMs, sampleRate)
      ensures envelope.releaseCoeff == CalculateCoefficient(m, releaseMs, sampleRate)
      ensures ratio != 0.0 ==> Valid()
    {
      this.attackMs := attackMs;
      this.releaseMs := releaseMs;
      threshold := DbToLin(m, thresholdDb);
      this.ratio := ratio;
      makeup := DbToLin(m, makeupDb);
      envelope := new EnvelopeFollower.FromMs(m, attackMs, releaseMs, sampleRate);
      this.sampleRate := sampleRate;
    }

    /** update_attack: the attack time and the follower's attack coefficient, nothing else. */
    method UpdateAttack(m: MathLib, attackMs: real)
      requires Lawful(m)
      modifies this`attackMs, envelope`attackCoeff
      ensures this.attackMs == attackMs
      ensures envelope.attackCoeff == CalculateCoefficient(m, attackMs, sampleRate)
    {
      this.attackMs := attackMs;
      envelope.SetAttackCoeff(CalculateCoefficient(m, attackMs, sampleRate));
    }

    /** update_release: the release time and the follower's release coefficient, nothing else. */
    method UpdateRelease(m: MathLib, releaseMs: real)
      requires Lawful(m)
      modifies this`releaseMs, envelope`releaseCoeff
      ensures this.releaseMs == releaseMs
      ensures envelope.releaseCoeff == CalculateCoefficient(m, releaseMs, sampleRate)
    {
      this.releaseMs := releaseMs;
      envelope.SetReleaseCoeff(CalculateCoefficient(m, releaseMs, sampleRate));
    }

    /**
     * process: follow max(|input|, 1e-10), then scale the input by the gain
     * reduction for the new envelope and by the makeup gain. With a ratio of
     * at least 1 the output is never louder than the input times the makeup.
     */
    method Process(m: MathLib, input: real) returns (output: real)
      requires Lawful(m) && Valid()
      modifies envelope`envelope
      ensures envelope.envelope
        == EnvelopeStep(old(envelope.envelope), envelope.attackCoeff, envelope.releaseCoeff, Max(Abs(input), MIN_LEVEL))
      ensures output == input * GainReduction(m, envelope.envelope, threshold, ratio) * makeup
      ensures envelope.envelope <= threshold ==> output == input * makeup
      ensures ratio >= 1.0 ==> Abs(output) <= Abs(input) * makeup
    {
      var levelIn := Max(Abs(input), MIN_LEVEL);
      var _ := envelope.Process(levelIn);
      var env := envelope.Value();
      var gainReduction := GainReduction(m, env, threshold, ratio);
      output := input * gainReduction * makeup;
      if ratio >= 1.0 {
        ReducedLevel(input, gainReduction, makeup);
      }
    }

    /**
     * set_parameter: threshold in [-60, 0] dB, ratio in [1, 20], attack in
     * [0.1, 100] ms, release in [10, 1000] ms, makeup in [-12, 24] dB. A
     * rejected value or an unknown name is an error and changes nothing.
     */
    method SetParameter(m: MathLib, name: string, value: real) returns (r: Result<Unit>)
      requires Lawful(m)
      modifies this`threshold, this`ratio, this`attackMs, this`releaseMs, this`makeup,
        envelope`attackCoeff, envelope`releaseCoeff
      ensures r.Ok? <==>
        || (name == "threshold" && -60.0 <= value <= 0.0)
        || (name == "ratio" && 1.0 <= value <= 20.0)
        || (name == "attack" && 0.1 <= value <= 100.0)
        || (name == "release" && 10.0 <= value <= 1000.0)
        || (name == "makeup" && -12.0 <= value <= 24.0)
      ensures r.Ok? ==> GetParameter(m, name) == Ok(value)
      ensures name == "attack" && r.Ok? ==>
        envelope.attackCoeff == CalculateCoefficient(m, value, sampleRate)
      ensures name == "release" && r.Ok? ==>
        envelope.releaseCoeff == CalculateCoefficient(m, value, sampleRate)
      ensures name != "threshold" || r.Err? ==> threshold == old(threshold)
      ensures name != "ratio" || r.Err? ==> ratio == old(ratio)
      ensures name != "attack" || r.Err? ==>
        attackMs == old(attackMs) && envelope.attackCoeff == old(envelope.attackCoeff)
      ensures name != "release" || r.Err? ==>
        releaseMs == old(releaseMs) && envelope.releaseCoeff == old(envelope.releaseCoeff)
      ensures name != "makeup" || r.Err? ==> makeup == old(makeup)
      ensures old(Valid()) ==> Valid()
      ensures name !in {"threshold", "ratio", "attack", "release", "makeup"} ==> r == Err("Unknown parameter")
    {
      match name {
        case "threshold" =>
          if -60.0 <= value <= 0.0 {
            threshold := DbToLin(m, value);
            DbRoundTrip(m, value);
            r := Ok(Unit);
          } else {
            r := Err("Threshold must be between -60 dB and 0 dB");
          }
        case "ratio" =>
          if 1.0 <= value <= 20.0 {
            ratio := value;
            r := Ok(Unit);
          } else {
            r := Err("Ratio must be between 1.0 and 20.0");
          }
        case "attack" =>
          if 0.1 <= value <= 100.0 {
            UpdateAttack(m, value);
            r := Ok(Unit);
          } else {
            r := Err("Attack must be between 0.1 ms and 100 ms");
          }
        case "release" =>
          if 10.0 <= value <= 1000.0 {
            UpdateRelease(m, value);
            r := Ok(Unit);
          } else {
            r := Err("Release must be between 10 ms and 1000 ms");
          }
        case "makeup" =>
          if -12.0 <= value <= 24.0 {
            makeup := DbToLin(m, value);
            DbRoundTrip(m, value);
            r := Ok(Unit);
          } else {
            r := Err("Makeup must be between -12 dB and 24 dB");
          }
        case _ =>
          r := Err("Unknown parameter");
      }
    }

    /** get_parameter: threshold and makeup read back in decibels. */
    function GetParameter(m: MathLib, name: string): (r: Result<real>)
      reads this
      ensures r.Ok? <==> name in {"threshold", "ratio", "attack", "release", "makeup"}
      ensures r.Err? ==> r.error == "Unknown parameter"
    {
      match name
      case "threshold" => Ok(LinToDb(m, threshold))
      case "ratio" => Ok(ratio)
      case "attack" => Ok(attackMs)
      case "release" => Ok(releaseMs)
      case "makeup" => Ok(LinToDb(m, makeup))
      case _ => Err("Unknown parameter")
    }
  }
}

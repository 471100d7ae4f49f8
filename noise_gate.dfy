/*
 * The noise gate (src/sim/stages/noise_gate.rs): an envelope follower on
 * the input decides whether the gate should open, a hold counter keeps it
 * open for a while after the signal drops, a smoothed gate state moves
 * toward open (1) or closed (0), and a closed gate attenuates by the ratio.
 */
module NoiseGate {
  import opened Common
  import opened MathLib
  import opened StageCommon
  import opened AmpChain

  /** A ratio that can be divided by. */
  type NonZero = r: real | r != 0.0 witness 1.0

  /** The follower's own attack and release times, in milliseconds. */
  const ENV_ATTACK_MS: real := 0.1
  const ENV_RELEASE_MS: real := 10.0

  /** Above this smoothed gate state the gate counts as fully open. */
  const OPEN_STATE: real := 0.999

  /** The per-sample state of the gate. */
  datatype GateState = GateState(envelope: real, gateState: real, holdCounter: nat)

  /** What one sample of processing reads from the gate's settings. */
  datatype GateConfig = GateConfig(
    threshold: real,
    ratio: NonZero,
    holdSamples: nat,
    attackCoeff: real,
    releaseCoeff: real,
    envAttackCoeff: real,
    envReleaseCoeff: real)

  /** get_hold_samples: the hold time in whole samples. */
  function HoldSamples(holdMs: real, sampleRate: real): nat {
    CastToUsize(holdMs * 0.001 * sampleRate)
  }

  /**
   * The hold counter: reloaded while the gate should open, otherwise
   * counted down by one until it reaches zero, where it stays.
   */
  function NextHold(shouldOpen: bool, hold: nat, holdSamples: nat): (h: nat)
    ensures shouldOpen ==> h == holdSamples
    ensures !shouldOpen && hold > 0 ==> h == hold - 1
    ensures !shouldOpen && hold == 0 ==> h == 0
  {
    if shouldOpen then holdSamples else if hold > 0 then hold - 1 else hold
  }

  /** The state the gate moves toward: open while it should open or the hold lasts, closed otherwise. */
  function TargetState(shouldOpen: bool, hold: nat): (t: real)
    ensures t == 1.0 <==> shouldOpen || hold > 0
    ensures t == 0.0 || t == 1.0
  {
    if shouldOpen || hold > 0 then 1.0 else 0.0
  }

  /** The gate state's one-pole step toward the target: attack while opening, release while closing. */
  function GateSmooth(gate: real, target: real, attack: real, release: real): real {
    if target > gate then OnePole(attack, gate, target) else OnePole(release, gate, target)
  }

  /** The gate state stays within [0, 1]: every step blends two values of that range. */
  lemma GateSmoothInUnit(gate: real, target: real, attack: real, release: real)
    requires 0.0 <= gate <= 1.0 && 0.0 <= target <= 1.0
    requires IsCoefficient(attack) && IsCoefficient(release)
    ensures 0.0 <= GateSmooth(gate, target, attack, release) <= 1.0
  {
    if target > gate {
      Blend(attack, gate, target);
    } else {
      Blend(release, gate, target);
    }
  }

  /**
   * The gain applied to the input: 1/ratio blended toward 1 by the gate
   * state, or exactly 1 once the gate is (almost) fully open.
   */
  function Reduction(gate: real, ratio: NonZero): real {
    if gate < OPEN_STATE then PartlyOpen(1.0 / ratio, gate) else 1.0
  }

  /** The closed gain raised toward 1 by the gate state. */
  function PartlyOpen(closedGain: real, gate: real): real {
    closedGain + (1.0 - closedGain) * gate
  }

  /** With a ratio of at least 1 the applied gain lies in [1/ratio, 1]: the gate attenuates, never amplifies. */
  lemma ReductionBounds(gate: real, ratio: NonZero)
    requires 0.0 <= gate <= 1.0 && ratio >= 1.0
    ensures 1.0 / ratio <= Reduction(gate, ratio) <= 1.0
    ensures 0.0 < Reduction(gate, ratio)
  {
    var c := 1.0 / ratio;
    MulMono(c, 1.0, ratio);
    assert c * ratio == 1.0;
    assert 0.0 < c <= 1.0;
    if gate < OPEN_STATE {
      ScaleBetween(gate, 1.0 - c);
      assert (1.0 - c) * gate == gate * (1.0 - c);
      assert Reduction(gate, ratio) == c + (1.0 - c) * gate;
    }
  }

  /** process: one sample through the follower, the hold logic, the gate smoothing and the gain. */
  function GateStep(c: GateConfig, s: GateState, input: real): (r: (GateState, real))
    ensures r.1 == input * Reduction(r.0.gateState, c.ratio)
  {
    var envelope := EnvelopeStep(s.envelope, c.envAttackCoeff, c.envReleaseCoeff, input);
    var shouldOpen := envelope > c.threshold;
    var hold := NextHold(shouldOpen, s.holdCounter, c.holdSamples);
    var target := TargetState(shouldOpen, hold);
    var gate := GateSmooth(s.gateState, target, c.attackCoeff, c.releaseCoeff);
    (GateState(envelope, gate, hold), input * Reduction(gate, c.ratio))
  }

  /** Coefficients in range, the envelope non-negative and the gate state within [0, 1]. */
  predicate Steady(c: GateConfig, s: GateState) {
    && IsCoefficient(c.attackCoeff) && IsCoefficient(c.releaseCoeff)
    && IsCoefficient(c.envAttackCoeff) && IsCoefficient(c.envReleaseCoeff)
    && s.envelope >= 0.0 && 0.0 <= s.gateState <= 1.0
  }

  /** A gain within [lo, 1] keeps a signal's magnitude within [lo·|x|, |x|]. */
  lemma ScaledLevel(x: real, g: real, lo: real)
    requires 0.0 <= lo <= g <= 1.0
    ensures lo * Abs(x) <= Abs(x * g) <= Abs(x)
  {
    AbsScale(g, x);
    assert x * g == g * x;
    MulMono(g, 1.0, Abs(x));
    MulMono(lo, g, Abs(x));
  }

  /**
   * With a ratio of at least 1 a gate state within [0, 1] leaves the input
   * no louder than it was and no quieter than input/ratio.
   */
  lemma GatedLevel(input: real, gate: real, ratio: NonZero)
    requires 0.0 <= gate <= 1.0 && ratio >= 1.0
    ensures Abs(input) / ratio <= Abs(input * Reduction(gate, ratio)) <= Abs(input)
  {
    ReductionBounds(gate, ratio);
    ScaledLevel(input, Reduction(gate, ratio), 1.0 / ratio);
    assert Abs(input) / ratio == 1.0 / ratio * Abs(input);
  }

  /** A step keeps a steady gate steady: the envelope stays non-negative and the gate state within [0, 1]. */
  lemma GateStepSteady(c: GateConfig, s: GateState, input: real)
    requires Steady(c, s)
    ensures Steady(c, GateStep(c, s, input).0)
  {
    var envelope := EnvelopeStep(s.envelope, c.envAttackCoeff, c.envReleaseCoeff, input);
    EnvelopeStepBetween(s.envelope, c.envAttackCoeff, c.envReleaseCoeff, input);
    var shouldOpen := envelope > c.threshold;
    var hold := NextHold(shouldOpen, s.holdCounter, c.holdSamples);
    GateSmoothInUnit(s.gateState, TargetState(shouldOpen, hold), c.attackCoeff, c.releaseCoeff);
  }

  /** With a ratio of at least 1 a steady gate's output is never louder than its input and at least input/ratio. */
  lemma GateStepLevel(c: GateConfig, s: GateState, input: real)
    requires Steady(c, s) && c.ratio >= 1.0
    ensures Abs(input) / c.ratio <= Abs(GateStep(c, s, input).1) <= Abs(input)
  {
    var r := GateStep(c, s, input);
    var gate := r.0.gateState;
    GateStepSteady(c, s, input);
    assert 0.0 <= gate <= 1.0;
    GatedLevel(input, gate, c.ratio);
    assert r.1 == input * Reduction(gate, c.ratio);
  }

  /** The gate's per-sample step as a stage of the generic block fold. */
  function Stepper(c: GateConfig): (GateState, real) -> (GateState, real) {
    (s, x) => GateStep(c, s, x)
  }

  class NoiseGateStage {
    var threshold: real
    var ratio: NonZero
    var attackMs: real
    var holdMs: real
    var releaseMs: real
    var envelope: real
    var gateState: real
    var holdCounter: nat
    var sampleRate: real
    var attackCoeff: real
    var releaseCoeff: real
    var envAttackCoeff: real
    var envReleaseCoeff: real

    function Config(): GateConfig
      reads this
    {
      GateConfig(threshold, ratio, HoldSamples(holdMs, sampleRate),
                 attackCoeff, releaseCoeff, envAttackCoeff, envReleaseCoeff)
    }

    function State(): GateState
      reads this
    {
      GateState(envelope, gateState, holdCounter)
    }

    /**
     * new: threshold from decibels, the gate closed and at rest, and all
     * four coefficients from their times.
     */
    constructor (m: MathLib, thresholdDb: real, ratio: NonZero, attackMs: real, holdMs: real, releaseMs: real, sampleRate: real)
      requires Lawful(m)
      ensures threshold == DbToLin(m, thresholdDb) && this.ratio == ratio
      ensures this.attackMs == attackMs && this.holdMs == holdMs && this.releaseMs == releaseMs
      ensures this.sampleRate == sampleRate
      ensures State() == GateState(0.0, 0.0, 0)
      ensures attackCoeff == CalculateCoefficient(m, attackMs, sampleRate)
      ensures releaseCoeff == CalculateCoefficient(m, releaseMs, sampleRate)
      ensures envAttackCoeff == CalculateCoefficient(m, ENV_ATTACK_MS, sampleRate)
      ensures envReleaseCoeff == CalculateCoefficient(m, ENV_RELEASE_MS, sampleRate)
      ensures sampleRate > 0.0 && attackMs > 0.0 && releaseMs > 0.0 ==> Steady(Config(), State())
    {
      threshold := DbToLin(m, thresholdDb);
      this.ratio := ratio;
      this.attackMs := attackMs;
      this.holdMs := holdMs;
      this.releaseMs := releaseMs;
      envelope := 0.0;
      gateState := 0.0;
      holdCounter := 0;
      this.sampleRate := sampleRate;
      attackCoeff := CalculateCoefficient(m, attackMs, sampleRate);
      releaseCoeff := CalculateCoefficient(m, releaseMs, sampleRate);
      envAttackCoeff := CalculateCoefficient(m, ENV_ATTACK_MS, sampleRate);
      envReleaseCoeff := CalculateCoefficient(m, ENV_RELEASE_MS, sampleRate);
    }

    /** update_coefficients: both gate coefficients from the current times. */
    method UpdateCoefficients(m: MathLib)
      requires Lawful(m)
      modifies this`attackCoeff, this`releaseCoeff
      ensures attackCoeff == CalculateCoefficient(m, attackMs, sampleRate)
      ensures releaseCoeff == CalculateCoefficient(m, releaseMs, sampleRate)
    {
      attackCoeff := CalculateCoefficient(m, attackMs, sampleRate);
      releaseCoeff := CalculateCoefficient(m, releaseMs, sampleRate);
    }

    /** process: the settings are untouched; the state and the output follow GateStep. */
    method Process(input: real) returns (output: real)
      modifies this`envelope, this`gateState, this`holdCounter
      ensures (State(), output) == GateStep(Config(), old(State()), input)
    {
      ghost var s0 := State();
      ghost var c := Config();
      var inputAbs := Abs(input);
      if inputAbs > envelope {
        envelope := OnePole(envAttackCoeff, envelope, inputAbs);
      } else {
        envelope := OnePole(envReleaseCoeff, envelope, inputAbs);
      }
      assert envelope == EnvelopeStep(s0.envelope, c.envAttackCoeff, c.envReleaseCoeff, input);
      var shouldOpen := envelope > threshold;
      if shouldOpen {
        holdCounter := HoldSamples(holdMs, sampleRate);
      } else if holdCounter > 0 {
        holdCounter := holdCounter - 1;
      }
      assert holdCounter == NextHold(shouldOpen, s0.holdCounter, c.holdSamples);
      var targetState := if shouldOpen || holdCounter > 0 then 1.0 else 0.0;
      assert targetState == TargetState(shouldOpen, holdCounter);
      if targetState > gateState {
        gateState := OnePole(attackCoeff, gateState, targetState);
      } else {
        gateState := OnePole(releaseCoeff, gateState, targetState);
      }
      assert gateState == GateSmooth(s0.gateState, targetState, c.attackCoeff, c.releaseCoeff);
      var reduction;
      if gateState < OPEN_STATE {
        var closedGain := 1.0 / ratio;
        reduction := PartlyOpen(closedGain, gateState);
      } else {
        reduction := 1.0;
      }
      assert reduction == Reduction(gateState, c.ratio);
      output := input * reduction;
      assert Config() == c;
      assert GateStep(c, s0, input).0.envelope == envelope;
      assert GateStep(c, s0, input).0.holdCounter == holdCounter;
      assert GateStep(c, s0, input).0.gateState == gateState;
      assert GateStep(c, s0, input).1 == output;
      assert GateStep(c, s0, input) == (State(), output);
    }

    /** process_block: every sample of the block through process, in order, in place. */
    method ProcessBlock(block: array<real>)
      modifies this`envelope, this`gateState, this`holdCounter, block
      ensures (State(), block[..]) == StageBlock(old(State()), Stepper(Config()), old(block[..]))
    {
      var j := 0;
      while j < block.Length
        invariant 0 <= j <= block.Length
        invariant block[j..] == old(block[..])[j..]
        invariant (State(), block[..j]) == StageBlock(old(State()), Stepper(Config()), old(block[..])[..j])
      {
        assert old(block[..])[..j + 1][..j] == old(block[..])[..j];
        assert old(block[..])[..j + 1][j] == block[j];
        var y := Process(block[j]);
        block[j] := y;
        assert block[..j + 1] == block[..j] + [y];
        j := j + 1;
      }
      assert block[..j] == block[..];
      assert old(block[..])[..j] == old(block[..]);
    }

    /**
     * set_parameter: threshold in [-80, 0] dB, ratio in [1, 100], attack in
     * [0.1, 100] ms, hold in [0, 500] ms, release in [1, 1000] ms; attack and
     * release also recompute the gate coefficients. A rejected value or an
     * unknown name is an error and changes nothing.
     */
    method SetParameter(m: MathLib, name: string, value: real) returns (r: Result<Unit>)
      requires Lawful(m)
      modifies this`threshold, this`ratio, this`attackMs, this`holdMs, this`releaseMs,
        this`attackCoeff, this`releaseCoeff
      ensures r.Ok? <==>
        || (name == "threshold" && -80.0 <= value <= 0.0)
        || (name == "ratio" && 1.0 <= value <= 100.0)
        || (name == "attack" && 0.1 <= value <= 100.0)
        || (name == "hold" && 0.0 <= value <= 500.0)
        || (name == "release" && 1.0 <= value <= 1000.0)
      ensures r.Ok? ==> GetParameter(m, name) == Ok(value)
      ensures r.Ok? && name in {"attack", "release"} ==>
        attackCoeff == CalculateCoefficient(m, attackMs, sampleRate)
        && releaseCoeff == CalculateCoefficient(m, releaseMs, sampleRate)
      ensures r.Err? || name != "threshold" ==> threshold == old(threshold)
      ensures r.Err? || name != "ratio" ==> ratio == old(ratio)
      ensures r.Err? || name != "attack" ==> attackMs == old(attackMs)
      ensures r.Err? || name != "hold" ==> holdMs == old(holdMs)
      ensures r.Err? || name != "release" ==> releaseMs == old(releaseMs)
      ensures r.Err? || name !in {"attack", "release"} ==>
        attackCoeff == old(attackCoeff) && releaseCoeff == old(releaseCoeff)
      ensures name !in {"threshold", "ratio", "attack", "hold", "release"} ==> r == Err("Unknown parameter name")
    {
      match name {
        case "threshold" =>
          if -80.0 <= value <= 0.0 {
            threshold := DbToLin(m, value);
            DbRoundTrip(m, value);
            r := Ok(Unit);
          } else {
            r := Err("Threshold must be between -80 dB and 0 dB");
          }
        case "ratio" =>
          if 1.0 <= value <= 100.0 {
            ratio := value;
            r := Ok(Unit);
          } else {
            r := Err("Ratio must be between 1:1 and 100:1");
          }
        case "attack" =>
          if 0.1 <= value <= 100.0 {
            attackMs := value;
            UpdateCoefficients(m);
            r := Ok(Unit);
          } else {
            r := Err("Attack must be between 0.1 ms and 100 ms");
          }
        case "hold" =>
          if 0.0 <= value <= 500.0 {
            holdMs := value;
            r := Ok(Unit);
          } else {
            r := Err("Hold must be between 0 ms and 500 ms");
          }
        case "release" =>
          if 1.0 <= value <= 1000.0 {
            releaseMs := value;
            UpdateCoefficients(m);
            r := Ok(Unit);
          } else {
            r := Err("Release must be between 1 ms and 1000 ms");
          }
        case _ =>
          r := Err("Unknown parameter name");
      }
    }

    /** get_parameter: the threshold reads back in decibels. */
    function GetParameter(m: MathLib, name: string): (r: Result<real>)
      reads this
      ensures r.Ok? <==> name in {"threshold", "ratio", "attack", "hold", "release"}
      ensures r.Err? ==> r.error == "Unknown parameter name"
    {
      match name
      case "threshold" => Ok(LinToDb(m, threshold))
      case "ratio" => Ok(ratio)
      case "attack" => Ok(attackMs)
      case "hold" => Ok(holdMs)
      case "release" => Ok(releaseMs)
      case _ => Err("Unknown parameter name")
    }
  }
}

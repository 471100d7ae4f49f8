/*
 * The delay stage (src/amp/stages/delay.rs): a ring buffer sized for two
 * seconds, a smoothed fractional delay read by linear interpolation, a
 * feedback path with denormal flushing, and a dry/wet mix.
 */
module DelayStage {
  import opened Common
  import opened MathLib
  import opened StageCommon

  const MAX_DELAY_MS: real := 2000.0
  const MAX_FEEDBACK: real := 0.95
  const SMOOTH_TIME_MS: real := 50.0


  /** The longest delay, in samples, for a sample rate. */
  function MaxDelaySamples(sampleRate: real): real {
    MAX_DELAY_MS * 0.001 * sampleRate
  }

  /** A delay time in samples: `delay_ms * 0.001 * sample_rate`. */
  function DelaySamples(delayMs: real, sampleRate: real): real {
    delayMs * 0.001 * sampleRate
  }

  /** A delay time within range is a non-negative number of samples that fits the ring. */
  lemma DelaySamplesInRange(delayMs: real, sampleRate: real)
    requires 0.0 <= delayMs <= MAX_DELAY_MS && sampleRate >= 0.0
    ensures 0.0 <= DelaySamples(delayMs, sampleRate) <= MaxDelaySamples(sampleRate)
  {
    var d := delayMs * 0.001;
    var m := MAX_DELAY_MS * 0.001;
    assert 0.0 <= d <= m;
    MulMono(0.0, d, sampleRate);
    MulMono(d, m, sampleRate);
    assert DelaySamples(delayMs, sampleRate) == d * sampleRate;
    assert MaxDelaySamples(sampleRate) == m * sampleRate;
  }

  /**
   * The slot `delay` samples behind the write position of a ring of `len`
   * slots, `(write_pos + len - delay) % len`: the write position minus the
   * delay, wrapped once when it would fall before the start.
   */
  function SlotBehind(writePos: nat, len: nat, delay: nat): (i: nat)
    requires writePos < len && delay <= len
    ensures i < len
    ensures i == if writePos >= delay then writePos - delay else writePos + len - delay
    ensures (i + delay) % len == writePos
  {
    ModSmall(writePos + len - delay, len);
    if writePos >= delay then
      ModSmall(writePos, len);
      (writePos + len - delay) % len
    else
      ModSmall(writePos + len, len);
      (writePos + len - delay) % len
  }

  /** The read delay is at least one sample and leaves room for the neighbouring tap. */
  predicate DelayFits(len: nat, smoothed: real) {
    var whole := CastToUsize(Max(smoothed, 1.0));
    1 <= whole && whole + 1 <= len
  }

  /** Linear interpolation from `a` (at t = 0) to `b` (at t = 1). */
  function Lerp(t: real, a: real, b: real): (r: real)
    ensures t == 0.0 ==> r == a
    ensures t == 1.0 ==> r == b
  {
    (1.0 - t) * a + t * b
  }

  /** For t in [0, 1] the interpolated value lies between the two ends. */
  lemma LerpBetween(t: real, a: real, b: real)
    requires IsCoefficient(t)
    ensures Min(a, b) <= Lerp(t, a, b) <= Max(a, b)
  {
    Blend(1.0 - t, a, b);
    assert OnePole(1.0 - t, a, b) == Lerp(t, a, b);
  }

  /**
   * The delayed sample: the smoothed delay (at least one sample) split into
   * whole and fractional parts, read by linear interpolation between the
   * slot `whole` samples back and the one before it.
   */
  function DelayedSample(buf: seq<real>, writePos: nat, smoothed: real): real
    requires writePos < |buf| && DelayFits(|buf|, smoothed)
  {
    var clamped := Max(smoothed, 1.0);
    var whole := CastToUsize(clamped);
    var frac := clamped - whole as real;
    Lerp(frac, buf[SlotBehind(writePos, |buf|, whole)], buf[SlotBehind(writePos, |buf|, whole + 1)])
  }

  /** The interpolated sample lies between the two taps it is read from. */
  lemma DelayedSampleBetween(buf: seq<real>, writePos: nat, smoothed: real)
    requires writePos < |buf| && DelayFits(|buf|, smoothed)
    requires Max(smoothed, 1.0) < (USIZE_MAX + 1) as real
    ensures var whole := CastToUsize(Max(smoothed, 1.0));
      var a := buf[SlotBehind(writePos, |buf|, whole)];
      var b := buf[SlotBehind(writePos, |buf|, whole + 1)];
      Min(a, b) <= DelayedSample(buf, writePos, smoothed) <= Max(a, b)
  {
    var clamped := Max(smoothed, 1.0);
    var whole := CastToUsize(clamped);
    assert whole as real <= clamped < whole as real + 1.0;
    LerpBetween(clamped - whole as real, buf[SlotBehind(writePos, |buf|, whole)], buf[SlotBehind(writePos, |buf|, whole + 1)]);
  }

  /**
   * The read never touches the slot about to be written, so it returns an
   * earlier input, never stale data; the neighbouring tap avoids it too
   * while the ring has a spare slot beyond it.
   */
  lemma ReadsBehindWriteHead(writePos: nat, len: nat, smoothed: real)
    requires writePos < len && DelayFits(len, smoothed)
    ensures var whole := CastToUsize(Max(smoothed, 1.0));
      && SlotBehind(writePos, len, whole) != writePos
      && (whole + 1 < len <==> SlotBehind(writePos, len, whole + 1) != writePos)
  {
  }

  /** Dry/wet mix: mix 0 is the dry input exactly, mix 1 the delayed signal exactly. */
  function MixOut(mix: real, input: real, delayed: real): (out: real)
    ensures mix == 0.0 ==> out == input
    ensures mix == 1.0 ==> out == delayed
  {
    Lerp(mix, input, delayed)
  }

  /** Any mix in [0, 1] lies between the dry and the delayed sample. */
  lemma MixBetween(mix: real, input: real, delayed: real)
    requires IsCoefficient(mix)
    ensures Min(input, delayed) <= MixOut(mix, input, delayed) <= Max(input, delayed)
  {
    LerpBetween(mix, input, delayed);
  }

  /** A non-negative multiple of a value within B is within the same multiple of B. */
  lemma ScaledWithin(f: real, d: real, bound: real)
    requires 0.0 <= f && Abs(d) <= bound
    ensures Abs(f * d) <= f * bound
  {
    AbsScale(f, d);
    MulMono(Abs(d), bound, f);
  }

  /**
   * With feedback below one, an input no larger than (1 - feedback)·B keeps
   * every stored value within B: the echo tail cannot grow without bound.
   */
  lemma FeedbackKeepsBound(feedback: real, delayed: real, input: real, bound: real)
    requires 0.0 <= feedback <= MAX_FEEDBACK
    requires Abs(delayed) <= bound
    requires Abs(input) <= (1.0 - feedback) * bound
    ensures Abs(FlushDenormal(MulAdd(feedback, delayed, input))) <= bound
  {
    var fd := feedback * delayed;
    ScaledWithin(feedback, delayed, bound);
    assert (1.0 - feedback) * bound == bound - feedback * bound;
    assert Abs(fd + input) <= Abs(fd) + Abs(input);
  }

  /** Every slot of the ring holds a value within `bound`. */
  predicate Bounded(buf: seq<real>, bound: real) {
    forall i :: 0 <= i < |buf| ==> Abs(buf[i]) <= bound
  }

  /**
   * One step of the delay line keeps a bounded ring bounded: the new value
   * is feedback times an interpolation of two bounded slots plus an input
   * of at most (1 - feedback)·B.
   */
  lemma WriteKeepsBound(buf: seq<real>, writePos: nat, smoothed: real, feedback: real, input: real)
    requires writePos < |buf| && DelayFits(|buf|, smoothed) && Max(smoothed, 1.0) < (USIZE_MAX + 1) as real
    requires 0.0 <= feedback <= MAX_FEEDBACK
    ensures forall bound :: Bounded(buf, bound) && Abs(input) <= (1.0 - feedback) * bound ==>
      Bounded(buf[writePos := FlushDenormal(MulAdd(feedback, DelayedSample(buf, writePos, smoothed), input))], bound)
  {
    var delayed := DelayedSample(buf, writePos, smoothed);
    forall bound | Bounded(buf, bound) && Abs(input) <= (1.0 - feedback) * bound
      ensures Bounded(buf[writePos := FlushDenormal(MulAdd(feedback, delayed, input))], bound)
    {
      DelayedSampleBetween(buf, writePos, smoothed);
      FeedbackKeepsBound(feedback, delayed, input, bound);
    }
  }

  /**
   * One smoothing step from a valid state keeps the smoothed delay within
   * the ring: the read delay fits and its cast does not saturate.
   */
  lemma SmoothedFits(len: nat, sampleRate: real, smoothed: real, target: real, coeff: real, delayMs: real)
    requires sampleRate > 0.0 && MaxDelaySamples(sampleRate) < USIZE_MAX as real
    requires len == CastToUsize(MaxDelaySamples(sampleRate)) + 2
    requires 0.0 <= smoothed <= MaxDelaySamples(sampleRate)
    requires 0.0 <= delayMs <= MAX_DELAY_MS && target == DelaySamples(delayMs, sampleRate)
    requires IsCoefficient(coeff)
    ensures var next := OnePole(coeff, smoothed, target);
      && 0.0 <= next <= MaxDelaySamples(sampleRate)
      && DelayFits(len, next)
      && Max(next, 1.0) < (USIZE_MAX + 1) as real
  {
    var next := OnePole(coeff, smoothed, target);
    Blend(coeff, smoothed, target);
    DelaySamplesInRange(delayMs, sampleRate);
    var clamped := Max(next, 1.0);
    CastToUsizeMonotone(1.0, clamped);
    CastToUsizeMonotone(clamped, Max(MaxDelaySamples(sampleRate), 1.0));
    assert CastToUsize(1.0) == 1;
  }

  class DelayStage {
    var delayMs: real
    var feedback: real
    var mix: real
    var buffer: array<real>
    var writePos: nat
    var sampleRate: real
    var delaySamplesSmoothed: real
    var delaySamplesTarget: real
    var smoothCoeff: real

    ghost predicate Valid()
      reads this
    {
      && sampleRate > 0.0
      && MaxDelaySamples(sampleRate) < USIZE_MAX as real
      && buffer.Length == CastToUsize(MaxDelaySamples(sampleRate)) + 2
      && writePos < buffer.Length
      && 0.0 <= delayMs <= MAX_DELAY_MS
      && 0.0 <= feedback <= MAX_FEEDBACK
      && 0.0 <= mix <= 1.0
      && delaySamplesTarget == DelaySamples(delayMs, sampleRate)
      && 0.0 <= delaySamplesSmoothed <= MaxDelaySamples(sampleRate)
      && IsCoefficient(smoothCoeff)
    }

    /**
     * new: parameters clamped to their ranges, a zeroed ring of two seconds
     * plus two slots, and the smoothed delay starting at its target. The
     * ring must be allocatable: its length has to fit a usize.
     */
    constructor (m: MathLib, delayMs: real, feedback: real, mix: real, sampleRate: real)
      requires Lawful(m) && sampleRate > 0.0
      requires MaxDelaySamples(sampleRate) < USIZE_MAX as real
      ensures Valid() && fresh(buffer)
      ensures this.delayMs == Clamp(delayMs, 0.0, MAX_DELAY_MS)
      ensures this.feedback == Clamp(feedback, 0.0, MAX_FEEDBACK)
      ensures this.mix == Clamp(mix, 0.0, 1.0)
      ensures forall i :: 0 <= i < buffer.Length ==> buffer[i] == 0.0
      ensures writePos == 0 && delaySamplesSmoothed == delaySamplesTarget
      ensures smoothCoeff == CalculateCoefficient(m, SMOOTH_TIME_MS, sampleRate)
    {
      var d := Clamp(delayMs, 0.0, MAX_DELAY_MS);
      this.delayMs := d;
      this.feedback := Clamp(feedback, 0.0, MAX_FEEDBACK);
      this.mix := Clamp(mix, 0.0, 1.0);
      var maxSamples := CastToUsize(MaxDelaySamples(sampleRate)) + 2;
      var delaySamples := DelaySamples(d, sampleRate);
      DelaySamplesInRange(d, sampleRate);
      buffer := new real[maxSamples](_ => 0.0);
      writePos := 0;
      this.sampleRate := sampleRate;
      delaySamplesSmoothed := delaySamples;
      delaySamplesTarget := delaySamples;
      smoothCoeff := CalculateCoefficient(m, SMOOTH_TIME_MS, sampleRate);
    }

    /**
     * process: smooth the delay toward its target, read the delayed sample,
     * store input plus feedback at the write head (flushing denormals),
     * advance the head and mix dry with wet.
     */
    method Process(input: real) returns (output: real)
      requires Valid()
      modifies this`delaySamplesSmoothed, this`writePos, buffer
      ensures Valid()
      ensures delaySamplesSmoothed == OnePole(smoothCoeff, old(delaySamplesSmoothed), delaySamplesTarget)
      ensures DelayFits(buffer.Length, delaySamplesSmoothed)
      ensures var delayed := DelayedSample(old(buffer[..]), old(writePos), delaySamplesSmoothed);
        && output == MixOut(mix, input, delayed)
        && buffer[..] == old(buffer[..])[old(writePos) := FlushDenormal(MulAdd(feedback, delayed, input))]
      ensures writePos == (old(writePos) + 1) % buffer.Length
    {
      ghost var before := buffer[..];
      SmoothedFits(buffer.Length, sampleRate, delaySamplesSmoothed, delaySamplesTarget, smoothCoeff, delayMs);
      delaySamplesSmoothed := OnePole(smoothCoeff, delaySamplesSmoothed, delaySamplesTarget);
      var bufLen := buffer.Length;
      var clamped := Max(delaySamplesSmoothed, 1.0);
      var whole := CastToUsize(clamped);
      var frac := clamped - whole as real;
      var readIdx := (writePos + bufLen - whole) % bufLen;
      var prevIdx := (writePos + bufLen - whole - 1) % bufLen;
      assert readIdx == SlotBehind(writePos, bufLen, whole);
      assert prevIdx == SlotBehind(writePos, bufLen, whole + 1);
      var delayed := Lerp(frac, buffer[readIdx], buffer[prevIdx]);
      assert delayed == DelayedSample(before, writePos, delaySamplesSmoothed);
      var writeVal := MulAdd(feedback, delayed, input);
      buffer[writePos] := if Abs(writeVal) < DENORMAL_THRESHOLD then 0.0 else writeVal;
      assert buffer[..] == before[writePos := FlushDenormal(writeVal)];
      writePos := (writePos + 1) % bufLen;
      output := MixOut(mix, input, delayed);
    }

    /** update_delay_target: the target follows the delay time. */
    method UpdateDelayTarget()
      modifies this`delaySamplesTarget
      ensures delaySamplesTarget == DelaySamples(delayMs, sampleRate)
    {
      delaySamplesTarget := delayMs * 0.001 * sampleRate;
    }

    /**
     * set_parameter: delay_time in [0, 2000] ms (also moving the target),
     * feedback in [0, 0.95], mix in [0, 1]; anything else is an error and
     * changes nothing.
     */
    method SetParameter(name: string, value: real) returns (r: Result<Unit>)
      requires Valid()
      modifies this`delayMs, this`feedback, this`mix, this`delaySamplesTarget
      ensures Valid()
      ensures r.Ok? <==>
        (name == "delay_time" && 0.0 <= value <= MAX_DELAY_MS)
        || (name == "feedback" && 0.0 <= value <= MAX_FEEDBACK)
        || (name == "mix" && 0.0 <= value <= 1.0)
      ensures r.Ok? ==> GetParameter(name) == Ok(value)
      ensures r.Err? || name != "delay_time" ==>
        delayMs == old(delayMs) && delaySamplesTarget == old(delaySamplesTarget)
      ensures r.Err? || name != "feedback" ==> feedback == old(feedback)
      ensures r.Err? || name != "mix" ==> mix == old(mix)
      ensures name !in {"delay_time", "feedback", "mix"} ==> r == Err("Unknown parameter")
    {
      match name {
        case "delay_time" =>
          if 0.0 <= value <= MAX_DELAY_MS {
            delayMs := value;
            UpdateDelayTarget();
            r := Ok(Unit);
          } else {
            r := Err("Delay time must be between 0 ms and 2000 ms");
          }
        case "feedback" =>
          if 0.0 <= value <= MAX_FEEDBACK {
            feedback := value;
            r := Ok(Unit);
          } else {
            r := Err("Feedback must be between 0.0 and 0.95");
          }
        case "mix" =>
          if 0.0 <= value <= 1.0 {
            mix := value;
            r := Ok(Unit);
          } else {
            r := Err("Mix must be between 0.0 and 1.0");
          }
        case _ =>
          r := Err("Unknown parameter");
      }
    }

    function GetParameter(name: string): (r: Result<real>)
      reads this
      ensures r.Ok? <==> name in {"delay_time", "feedback", "mix"}
    {
      match name
      case "delay_time" => Ok(delayMs)
      case "feedback" => Ok(feedback)
      case "mix" => Ok(mix)
      case _ => Err("Unknown parameter")
    }
  }
}

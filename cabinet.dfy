/*
 * The IR cabinet (src/ir/cabinet.rs): loads an impulse response by name,
 * truncates it to the configured maximum length, trims its silent ends,
 * hands it to the selected convolver, and runs that convolver with an
 * output gain and a bypass switch.
 */
module Cabinet {
  import opened Common
  import opened Fir
  import opened FftConvolver
  import opened Loader

  /** Which convolver the cabinet runs; FIR is the default. */
  datatype ConvolverType = FirType | TwoStageType

  const DEFAULT_CONVOLVER_TYPE: ConvolverType := FirType

  /** Default maximum IR length in milliseconds. */
  const DEFAULT_MAX_IR_MS: nat := 50

  /** Magnitude below which an IR sample counts as silence (1e-6). */
  const SILENCE: real := 0.000001

  /** The convolver enum: one of the two implementations. */
  datatype Convolver = FirConv(fir: FirConvolver) | TwoStageConv(twoStage: TwoStageConvolver)

  /** `(sample_rate * max_ir_ms) / 1000`. */
  function MaxIrSamples(sampleRate: nat, maxIrMs: nat): nat {
    (sampleRate * maxIrMs) / 1000
  }

  // ---------------------------------------------------------------------
  // Silence trimming

  /** The first sample from `from` on whose magnitude exceeds the threshold. */
  function FirstLoud(ir: seq<real>, from: nat): (r: Option<nat>)
    requires from <= |ir|
    ensures r.Some? ==> from <= r.value < |ir| && Abs(ir[r.value]) > SILENCE
    ensures r.Some? ==> forall i :: from <= i < r.value ==> Abs(ir[i]) <= SILENCE
    ensures r.None? ==> forall i :: from <= i < |ir| ==> Abs(ir[i]) <= SILENCE
    decreases |ir| - from
  {
    if from == |ir| then None
    else if Abs(ir[from]) > SILENCE then Some(from)
    else FirstLoud(ir, from + 1)
  }

  /** `position(|x| > 1e-6).unwrap_or(0)`. */
  function LeadingSilence(ir: seq<real>): (start: nat)
    ensures start <= |ir|
  {
    var p := FirstLoud(ir, 0);
    if p.Some? then p.value else 0
  }

  /**
   * Where the trailing scan stops: the end moves down past quiet samples
   * (magnitude below the threshold), never below `start`.
   */
  function TrailingEnd(ir: seq<real>, start: nat, end: nat): (r: nat)
    requires start <= end <= |ir|
    ensures start <= r <= end
    ensures forall k :: r <= k < end ==> Abs(ir[k]) < SILENCE
    ensures r == start || Abs(ir[r - 1]) >= SILENCE
    decreases end
  {
    if end > start && Abs(ir[end - 1]) < SILENCE then TrailingEnd(ir, start, end - 1) else end
  }

  /** What `trim_silence` returns. */
  function Trimmed(ir: seq<real>): seq<real> {
    var start := LeadingSilence(ir);
    ir[start..TrailingEnd(ir, start, |ir|)]
  }

  /** `trim_silence`: the leading search, then the trailing scan down from the end. */
  method TrimSilence(ir: seq<real>) returns (out: seq<real>)
    ensures out == Trimmed(ir)
  {
    var start := LeadingSilence(ir);
    var end := |ir|;
    while end > start && Abs(ir[end - 1]) < SILENCE
      invariant start <= end <= |ir|
      invariant TrailingEnd(ir, start, end) == TrailingEnd(ir, start, |ir|)
    {
      end := end - 1;
    }
    out := ir[start..end];
  }

  /**
   * The trimmed IR is a contiguous slice that drops only silence: before it
   * nothing exceeds the threshold, after it everything is below it. It
   * starts on a loud sample when there is one, and ends on a sample that
   * is not below the threshold.
   */
  lemma TrimmedEnds(ir: seq<real>)
    ensures var s := LeadingSilence(ir);
      var e := TrailingEnd(ir, s, |ir|);
      && Trimmed(ir) == ir[s..e]
      && (forall i :: 0 <= i < s ==> Abs(ir[i]) <= SILENCE)
      && (forall i :: e <= i < |ir| ==> Abs(ir[i]) < SILENCE)
      && (|Trimmed(ir)| > 0 ==> Abs(Trimmed(ir)[|Trimmed(ir)| - 1]) >= SILENCE)
      && ((exists i :: 0 <= i < |ir| && Abs(ir[i]) > SILENCE) ==> |Trimmed(ir)| > 0 && Abs(Trimmed(ir)[0]) > SILENCE)
  {
    var s := LeadingSilence(ir);
    var e := TrailingEnd(ir, s, |ir|);
    var t := Trimmed(ir);
    if exists i :: 0 <= i < |ir| && Abs(ir[i]) > SILENCE {
      var i :| 0 <= i < |ir| && Abs(ir[i]) > SILENCE;
      var p := FirstLoud(ir, 0);
      assert p.Some?;
      assert e > s;
      assert t[0] == ir[s];
    }
    if |t| > 0 {
      assert t[|t| - 1] == ir[e - 1];
    }
  }

  /** An IR whose every sample is below the threshold trims to nothing. */
  lemma SilentTrimsToEmpty(ir: seq<real>)
    requires forall i :: 0 <= i < |ir| ==> Abs(ir[i]) < SILENCE
    ensures Trimmed(ir) == []
  {
    assert FirstLoud(ir, 0).None?;
  }

  /** `truncate(max)`: at most the first `max` samples. */
  function Truncated(ir: seq<real>, max: nat): (r: seq<real>)
    ensures |r| <= max && |r| <= |ir|
    ensures r == ir[..|r|]
    ensures |ir| <= max ==> r == ir
  {
    if |ir| > max then ir[..max] else ir
  }

  /** The samples `select_ir` gives the convolver: truncated, then trimmed. */
  function Selected(ir: seq<real>, max: nat): (r: seq<real>)
    ensures |r| <= max
  {
    var t := Truncated(ir, max);
    TrimmedEnds(t);
    Trimmed(t)
  }

  /** A scaled copy: `conv_out * output_gain` per sample. */
  function Gained(xs: seq<real>, gain: real): seq<real> {
    Scaled(xs, gain)
  }

  class IrCabinet {
    const loader: IrLoader
    var convolver: Convolver
    var convolverType: ConvolverType
    const sampleRate: Rate
    var maxIrSamples: nat
    var bypassed: bool
    var outputGain: real
    /** The convolver's objects. */
    ghost var Repr: set<object>

    ghost predicate Valid()
      reads this, Repr
    {
      && 0.0 <= outputGain <= 2.0
      && (convolverType == FirType <==> convolver.FirConv?)
      && match convolver
         case FirConv(f) =>
           f in Repr && Repr == {f, f.inputBuffer} && f.Valid() && f.maxLength == maxIrSamples
         case TwoStageConv(t) =>
           t in Repr && Repr == {t, t.headRing, t.inputBuffer, t.olaBuffer, t.timeScratch} && t.Valid()
    }

    /** `with_config` once the loader exists: the chosen convolver, not bypassed, unit gain. */
    constructor (loader: IrLoader, sampleRate: Rate, convolverType: ConvolverType, maxIrMs: nat)
      ensures Valid() && fresh(Repr)
      ensures this.loader == loader && this.sampleRate == sampleRate && this.convolverType == convolverType
      ensures maxIrSamples == MaxIrSamples(sampleRate, maxIrMs)
      ensures !bypassed && outputGain == 1.0
      ensures convolver.FirConv? ==> convolver.fir.coefficients == [] && convolver.fir.history == []
      ensures convolver.TwoStageConv? ==> convolver.twoStage.numTailPartitions == 0 && convolver.twoStage.headHistory == []
    {
      this.loader := loader;
      this.sampleRate := sampleRate;
      this.convolverType := convolverType;
      var max := MaxIrSamples(sampleRate, maxIrMs);
      maxIrSamples := max;
      bypassed := false;
      outputGain := 1.0;
      if convolverType == FirType {
        var f := new FirConvolver(max);
        convolver := FirConv(f);
        Repr := {f, f.inputBuffer};
      } else {
        var t := new TwoStageConvolver();
        convolver := TwoStageConv(t);
        Repr := {t, t.headRing, t.inputBuffer, t.olaBuffer, t.timeScratch};
      }
    }

    /**
     * `select_ir`: a lookup error leaves everything as it was; otherwise the
     * loaded IR, truncated to max_ir_samples and trimmed, goes to the
     * convolver, whose error is passed on.
     */
    method SelectIr(read: WavReader, fft: Fft, name: string) returns (r: Result<Unit>)
      requires Valid() && FftLawful(fft)
      modifies Repr
      modifies this`Repr
      ensures var l := LookedUp(loader.availableIrPaths, read, name, loader.targetSampleRate);
        l.Err? ==> r == Err(l.error) && Repr == old(Repr) && unchanged(Repr) && Valid()
      ensures var l := LookedUp(loader.availableIrPaths, read, name, loader.targetSampleRate);
        l.Ok? && convolver.FirConv? ==>
          && r.Ok? && Valid() && fresh(Repr - old(Repr))
          && convolver.fir.coefficients == Selected(l.value, maxIrSamples)
          && convolver.fir.history == [] && convolver.fir.writePos == 0
      ensures var l := LookedUp(loader.availableIrPaths, read, name, loader.targetSampleRate);
        l.Ok? && convolver.TwoStageConv? && r.Ok? ==>
          && Valid() && Repr == old(Repr)
          && convolver.twoStage.headCoeffs == HeadOf(Selected(l.value, maxIrSamples))
          && convolver.twoStage.numTailPartitions == NumTailPartitions(|Selected(l.value, maxIrSamples)|)
      ensures r.Err? && convolver.TwoStageConv? && LookedUp(loader.availableIrPaths, read, name, loader.targetSampleRate).Ok? ==>
          r.error == "FFT failed during IR partitioning"
    {
      var loaded := loader.LoadByName(read, name);
      if loaded.Err? {
        return Err(loaded.error);
      }
      var ir := loaded.value;
      if |ir| > maxIrSamples {
        ir := ir[..maxIrSamples];
      }
      ir := TrimSilence(ir);
      assert ir == Selected(loaded.value, maxIrSamples);
      match convolver
      case FirConv(f) =>
        r := f.SetIr(ir);
        Repr := {f, f.inputBuffer};
      case TwoStageConv(t) =>
        r := t.SetIr(fft, ir);
    }

    /** `process_sample`: the input itself when bypassed, else the convolver's output times the gain. */
    method ProcessSample(fft: Fft, input: real) returns (output: real)
      requires Valid() && FftLawful(fft)
      modifies Repr
      ensures Valid() && Repr == old(Repr)
      ensures bypassed ==> output == input && unchanged(Repr)
      ensures !bypassed && convolver.FirConv? ==>
        && convolver.fir.history == old(convolver.fir.history) + [input]
        && output == Respond(convolver.fir.coefficients, old(convolver.fir.history), input) * outputGain
      ensures !bypassed && convolver.TwoStageConv? ==>
        var t := convolver.twoStage;
        && t.headHistory == old(t.headHistory) + [input]
        && output == (FirOutput(t.headCoeffs, t.headHistory)
                      + (if t.numTailPartitions > 0 then old(t.olaBuffer[t.olaRead]) else 0.0)) * outputGain
    {
      if bypassed {
        return input;
      }
      var convOut;
      match convolver {
        case FirConv(f) =>
          convOut := f.ProcessSample(input);
        case TwoStageConv(t) =>
          convOut := t.ProcessSample(fft, input);
      }
      output := convOut * outputGain;
    }

    /** `process_block`: nothing when bypassed, else the convolver over the block, then the gain. */
    method ProcessBlock(fft: Fft, samples: array<real>)
      requires Valid() && FftLawful(fft) && samples !in Repr
      modifies Repr, samples
      ensures Valid() && Repr == old(Repr)
      ensures bypassed ==> samples[..] == old(samples[..]) && unchanged(Repr)
      ensures !bypassed && convolver.FirConv? ==>
        && convolver.fir.history == old(convolver.fir.history) + old(samples[..])
        && samples[..] == Gained(RespondAll(convolver.fir.coefficients, old(convolver.fir.history), old(samples[..])), outputGain)
      ensures !bypassed && convolver.TwoStageConv? ==>
        var t := convolver.twoStage;
        && t.headHistory == old(t.headHistory) + old(samples[..])
        && |t.outputs| == |old(t.outputs)| + samples.Length
        && samples[..] == Gained(t.outputs[|old(t.outputs)|..], outputGain)
        && (t.numTailPartitions == 0 ==>
              samples[..] == Gained(RespondAll(t.headCoeffs, old(t.headHistory), old(samples[..])), outputGain))
    {
      if bypassed {
        return;
      }
      match convolver {
        case FirConv(f) =>
          f.ProcessBlock(samples);
        case TwoStageConv(t) =>
          t.ProcessBlock(fft, samples);
      }
      ScaleInPlace(samples, outputGain);
    }

    /** `set_bypass`: bypassing also resets the convolver's state. */
    method SetBypass(bypass: bool)
      requires Valid()
      modifies this`bypassed, Repr
      ensures Valid() && bypassed == bypass && Repr == old(Repr)
      ensures !bypass ==> unchanged(Repr)
      ensures bypass && convolver.FirConv? ==>
        var f := convolver.fir;
        && f.writePos == 0 && f.history == [] && f.coefficients == old(f.coefficients)
        && forall i :: 0 <= i < f.inputBuffer.Length ==> f.inputBuffer[i] == 0.0
      ensures bypass && convolver.TwoStageConv? ==>
        var t := convolver.twoStage;
        && t.IsReset() && t.headCoeffs == old(t.headCoeffs) && t.numTailPartitions == old(t.numTailPartitions)
    {
      bypassed := bypass;
      if bypass {
        match convolver
        case FirConv(f) =>
          f.Reset();
        case TwoStageConv(t) =>
          t.Reset();
      }
    }

    /** `set_gain`: the gain is clamped to [0, 2]. */
    method SetGain(gain: real)
      requires Valid()
      modifies this`outputGain
      ensures Valid() && outputGain == Clamp(gain, 0.0, 2.0)
    {
      outputGain := Clamp(gain, 0.0, 2.0);
    }

    /** `set_convolver_type`: the same type is a no-op; a new type gets a fresh convolver. */
    method SetConvolverType(t: ConvolverType)
      requires Valid()
      modifies this`convolverType, this`convolver, this`Repr
      ensures Valid() && convolverType == t
      ensures t == old(convolverType) ==> convolver == old(convolver) && Repr == old(Repr)
      ensures t != old(convolverType) ==> fresh(Repr)
      ensures t != old(convolverType) && t == FirType ==>
        convolver.fir.coefficients == [] && convolver.fir.maxLength == maxIrSamples
      ensures t != old(convolverType) && t == TwoStageType ==>
        convolver.twoStage.numTailPartitions == 0 && convolver.twoStage.headHistory == []
    {
      if convolverType != t {
        convolverType := t;
        if t == FirType {
          var f := new FirConvolver(maxIrSamples);
          convolver := FirConv(f);
          Repr := {f, f.inputBuffer};
        } else {
          var c := new TwoStageConvolver();
          convolver := TwoStageConv(c);
          Repr := {c, c.headRing, c.inputBuffer, c.olaBuffer, c.timeScratch};
        }
      }
    }

    /** `set_max_ir_ms`: a new maximum; a FIR cabinet gets a fresh FIR convolver of that length. */
    method SetMaxIrMs(maxMs: nat)
      requires Valid()
      modifies this`maxIrSamples, this`convolver, this`Repr
      ensures Valid() && maxIrSamples == MaxIrSamples(sampleRate, maxMs)
      ensures convolverType == FirType ==> fresh(Repr) && convolver.fir.coefficients == []
      ensures convolverType == TwoStageType ==> convolver == old(convolver) && Repr == old(Repr)
    {
      maxIrSamples := MaxIrSamples(sampleRate, maxMs);
      if convolverType == FirType {
        var f := new FirConvolver(maxIrSamples);
        convolver := FirConv(f);
        Repr := {f, f.inputBuffer};
      }
    }
  }

  /** `IrCabinet::with_config`: a loader error fails the construction. */
  method WithConfig(directory: string, sampleRate: Rate, convolverType: ConvolverType, maxIrMs: nat, scan: DirScan)
    returns (r: Result<IrCabinet>)
    ensures r.Ok? <==> (scan.Listed? || (scan.Absent? && scan.created))
    ensures r.Ok? ==> fresh(r.value) && r.value.Valid() && fresh(r.value.Repr)
    ensures r.Ok? ==> r.value.convolverType == convolverType && !r.value.bypassed && r.value.outputGain == 1.0
    ensures r.Ok? ==> r.value.maxIrSamples == MaxIrSamples(sampleRate, maxIrMs)
  {
    var l := NewIrLoader(directory, sampleRate, scan);
    if l.Err? {
      return Err(l.error);
    }
    var c := new IrCabinet(l.value, sampleRate, convolverType, maxIrMs);
    r := Ok(c);
  }

  /** `IrCabinet::new`: the FIR convolver and a 50 ms maximum. */
  method New(directory: string, sampleRate: Rate, scan: DirScan) returns (r: Result<IrCabinet>)
    ensures r.Ok? <==> (scan.Listed? || (scan.Absent? && scan.created))
    ensures r.Ok? ==> fresh(r.value) && r.value.Valid() && r.value.convolverType == FirType
    ensures r.Ok? ==> r.value.maxIrSamples == MaxIrSamples(sampleRate, DEFAULT_MAX_IR_MS)
  {
    r := WithConfig(directory, sampleRate, DEFAULT_CONVOLVER_TYPE, DEFAULT_MAX_IR_MS, scan);
  }

  /** At 48 kHz the default maximum keeps 2400 samples. */
  lemma DefaultMaxAt48k()
    ensures MaxIrSamples(48000, DEFAULT_MAX_IR_MS) == 2400
  {
  }
}

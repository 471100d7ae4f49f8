/*
 * The metronome (src/metronome/mod.rs): a sample counter that writes a
 * one-sample click at the start of every beat and silence elsewhere.
 */
module Metronome {
  import opened Common

  const CLICK: real := 1.0
  const SILENCE: real := 0.0

  /**
   * `(sample_rate as f32 * 60.0 / bpm) as usize`. A zero tempo divides to
   * +infinity, which the cast saturates to usize::MAX, unless the rate is
   * also zero and the quotient is NaN, which casts to 0.
   */
  function SamplesPerBeat(sampleRate: nat, bpm: real): (r: nat)
    ensures bpm > 0.0 ==> r == CastToUsize(sampleRate as real * 60.0 / bpm)
    ensures bpm < 0.0 && sampleRate > 0 ==> r == 0
  {
    if bpm == 0.0 then (if sampleRate > 0 then USIZE_MAX else 0)
    else CastToUsize(sampleRate as real * 60.0 / bpm)
  }

  /** One sample's counter update: count up and wrap to 0 on reaching the beat length. */
  function Step(counter: nat, samplesPerBeat: nat): nat {
    if counter + 1 >= samplesPerBeat then 0 else counter + 1
  }

  /** The counter after `k` samples. */
  function CounterAfter(counter: nat, samplesPerBeat: nat, k: nat): nat {
    if k == 0 then counter else Step(CounterAfter(counter, samplesPerBeat, k - 1), samplesPerBeat)
  }

  /** What sample `k` of the stream is: a click exactly when the counter is 0. */
  function Output(counter: nat, samplesPerBeat: nat, k: nat): real {
    if CounterAfter(counter, samplesPerBeat, k) == 0 then CLICK else SILENCE
  }

  /** From a counter inside the beat, the counter after k samples is (counter + k) mod the beat length. */
  lemma {:induction false} CounterClosedForm(counter: nat, samplesPerBeat: nat, k: nat)
    requires counter < samplesPerBeat
    ensures CounterAfter(counter, samplesPerBeat, k) == (counter + k) % samplesPerBeat
  {
    if k == 0 {
      ModUnique(counter, samplesPerBeat, 0, counter);
    } else {
      CounterClosedForm(counter, samplesPerBeat, k - 1);
      ModSucc(counter + k - 1, samplesPerBeat);
    }
  }

  /** From a fresh counter, sample k is a click exactly when k is a multiple of the beat length. */
  lemma ClickEveryBeat(samplesPerBeat: nat, k: nat)
    requires samplesPerBeat > 0
    ensures Output(0, samplesPerBeat, k) == CLICK <==> k % samplesPerBeat == 0
  {
    CounterClosedForm(0, samplesPerBeat, k);
  }

  /** With a zero beat length the counter never leaves 0: every sample clicks. */
  lemma {:induction false} ZeroBeatAlwaysClicks(counter: nat, k: nat)
    requires k > 0
    ensures CounterAfter(counter, 0, k) == 0
  {
    if k > 1 {
      ZeroBeatAlwaysClicks(counter, k - 1);
    }
  }

  class Metronome {
    const bpm: real
    const sampleRate: nat
    const samplesPerBeat: nat
    var sampleCounter: nat
    const enabled: bool

    /** The counter stays inside the beat (or at 0 when the beat is empty). */
    ghost predicate Valid()
      reads this
    {
      sampleCounter < samplesPerBeat || sampleCounter == 0
    }

    /** `Metronome::new`: counter at 0, disabled. */
    constructor (bpm: real, sampleRate: nat)
      ensures Valid()
      ensures this.bpm == bpm && this.sampleRate == sampleRate
      ensures samplesPerBeat == SamplesPerBeat(sampleRate, bpm)
      ensures sampleCounter == 0 && !enabled
    {
      this.bpm := bpm;
      this.sampleRate := sampleRate;
      samplesPerBeat := SamplesPerBeat(sampleRate, bpm);
      sampleCounter := 0;
      enabled := false;
    }

    /** `process_block`: write every sample of the block and advance the counter. */
    method ProcessBlock(output: array<real>)
      requires Valid()
      modifies this`sampleCounter, output
      ensures Valid()
      ensures forall i :: 0 <= i < output.Length ==> output[i] == Output(old(sampleCounter), samplesPerBeat, i)
      ensures sampleCounter == CounterAfter(old(sampleCounter), samplesPerBeat, output.Length)
    {
      var i := 0;
      while i < output.Length
        invariant 0 <= i <= output.Length
        invariant Valid()
        invariant sampleCounter == CounterAfter(old(sampleCounter), samplesPerBeat, i)
        invariant forall j :: 0 <= j < i ==> output[j] == Output(old(sampleCounter), samplesPerBeat, j)
      {
        if sampleCounter == 0 {
          output[i] := CLICK;
        } else {
          output[i] := SILENCE;
        }
        sampleCounter := sampleCounter + 1;
        if sampleCounter >= samplesPerBeat {
          sampleCounter := 0;
        }
        i := i + 1;
      }
    }
  }
}

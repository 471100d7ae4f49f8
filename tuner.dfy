/*
 * The guitar tuner (src/sim/tuner.rs): a 4096-sample ring of the input, a
 * pitch estimate by average magnitude difference (AMDF) every 1024 samples,
 * and the reading of a frequency as a note name, an octave and a deviation
 * in cents from equal temperament around A4 = 440 Hz.
 */
module Tuner {
  import opened Common
  import opened MathLib

  const BUFFER_SIZE: nat := 4096
  /** Detection reruns each time the write position reaches a multiple of this. */
  const DETECT_INTERVAL: nat := 1024
  /** `BUFFER_SIZE / 2`: the longest lag searched. */
  const MAX_LAG: nat := 2048
  const RMS_THRESHOLD: real := 0.01
  const IN_TUNE_CENTS: real := 5.0
  const A4_HZ: real := 440.0
  /** `f32::MAX`, the starting minimum of the lag search. */
  const F32_MAX: real := 340282346638528859811704183484516925440.0

  const NOTES: seq<string> := ["A", "A#", "B", "C", "C#", "D", "D#", "E", "F", "F#", "G", "G#"]

  // ----- pitch detection -----

  /** `buffer.iter().map(|x| x * x).sum()`. */
  function SumSquares(b: seq<real>): (r: real)
    ensures r >= 0.0
  {
    if |b| == 0 then 0.0 else SumSquares(b[..|b| - 1]) + b[|b| - 1] * b[|b| - 1]
  }

  /** The RMS level of the buffer, over its fixed size. */
  function Rms(m: MathLib, b: seq<real>): (r: real)
    ensures Lawful(m) ==> r >= 0.0
  {
    m.sqrt(SumSquares(b) / BUFFER_SIZE as real)
  }

  /** The sum of |b[i] − b[i+lag]| over the first `n` positions. */
  function LagDiff(b: seq<real>, lag: nat, n: nat): real
    requires lag + n <= |b|
  {
    if n == 0 then 0.0 else LagDiff(b, lag, n - 1) + Abs(b[n - 1] - b[n - 1 + lag])
  }

  /** The AMDF of the buffer at one lag: every position that has a partner `lag` later. */
  function LagDifference(b: seq<real>, lag: nat): real
    requires lag <= |b|
  {
    LagDiff(b, lag, |b| - lag)
  }

  /**
   * The lag search over [lo, hi) in increasing order, keeping a lag only when
   * it is strictly better than the best so far, which starts at f32::MAX with
   * period 0. The result is either nothing found, or the first lag of least
   * difference, and that difference is below f32::MAX.
   */
  function LagSearch(b: seq<real>, lo: nat, hi: nat): (r: (nat, real))
    requires hi <= |b|
    ensures r.1 <= F32_MAX
    ensures r.1 == F32_MAX ==> r.0 == 0 && forall lag :: lo <= lag < hi ==> LagDifference(b, lag) >= F32_MAX
    ensures r.1 < F32_MAX ==>
      && lo <= r.0 < hi
      && r.1 == LagDifference(b, r.0)
      && (forall lag :: lo <= lag < hi ==> r.1 <= LagDifference(b, lag))
      && (forall lag :: lo <= lag < r.0 ==> r.1 < LagDifference(b, lag))
  {
    if hi <= lo then (0, F32_MAX)
    else
      var prev := LagSearch(b, lo, hi - 1);
      var diff := LagDifference(b, hi - 1);
      if diff < prev.1 then (hi - 1, diff) else prev
  }

  /** `(sample_rate / 1200.0) as usize`: the period of 1200 Hz. */
  function MinPeriod(sampleRate: real): nat {
    CastToUsize(sampleRate / 1200.0)
  }

  /** `(sample_rate / 60.0) as usize`, capped at half the buffer. */
  function LagLimit(sampleRate: real): (r: nat)
    ensures r <= MAX_LAG
  {
    var maxPeriod := CastToUsize(sampleRate / 60.0);
    if maxPeriod < MAX_LAG then maxPeriod else MAX_LAG
  }

  /** `simple_amdf`: no pitch for a quiet buffer, otherwise the rate over the best lag if it is not 0. */
  function Detect(m: MathLib, b: seq<real>, sampleRate: real): Option<real>
    requires |b| == BUFFER_SIZE
  {
    if Rms(m, b) < RMS_THRESHOLD then None
    else
      var best := LagSearch(b, MinPeriod(sampleRate), LagLimit(sampleRate)).0;
      if best > 0 then Some(sampleRate / best as real) else None
  }

  /**
   * A detected frequency is the sample rate over a lag in
   * [sr/1200, min(sr/60, 2048)), the first whose AMDF is least there.
   */
  lemma DetectedLag(m: MathLib, b: seq<real>, sampleRate: real) returns (lag: nat)
    requires |b| == BUFFER_SIZE && Detect(m, b, sampleRate).Some?
    ensures MinPeriod(sampleRate) <= lag < LagLimit(sampleRate) && lag > 0
    ensures Rms(m, b) >= RMS_THRESHOLD
    ensures Detect(m, b, sampleRate).value == sampleRate / lag as real
    ensures forall l :: MinPeriod(sampleRate) <= l < LagLimit(sampleRate) ==> LagDifference(b, lag) <= LagDifference(b, l)
    ensures forall l :: MinPeriod(sampleRate) <= l < lag ==> LagDifference(b, lag) < LagDifference(b, l)
  {
    lag := LagSearch(b, MinPeriod(sampleRate), LagLimit(sampleRate)).0;
  }

  lemma {:induction false} SilentSumSquares(b: seq<real>)
    requires forall i :: 0 <= i < |b| ==> b[i] == 0.0
    ensures SumSquares(b) == 0.0
  {
    if |b| > 0 {
      SilentSumSquares(b[..|b| - 1]);
    }
  }

  /** A silent buffer never yields a pitch. */
  lemma SilenceHasNoPitch(m: MathLib, b: seq<real>, sampleRate: real)
    requires Lawful(m) && |b| == BUFFER_SIZE
    requires forall i :: 0 <= i < |b| ==> b[i] == 0.0
    ensures Detect(m, b, sampleRate) == None
  {
    SilentSumSquares(b);
    assert SumSquares(b) / BUFFER_SIZE as real == 0.0;
  }

  // ----- the note reading -----

  /** Semitones from A4, rounded half away from zero. */
  function NoteNumber(m: MathLib, freq: real): (n: int)
    ensures -0.5 <= 12.0 * m.log2(freq / A4_HZ) - n as real <= 0.5
  {
    Round(12.0 * m.log2(freq / A4_HZ))
  }

  /** `(semitones − note_number) · 100`. */
  function Cents(m: MathLib, freq: real): (c: real)
    ensures -50.0 <= c <= 50.0
  {
    var semitones := 12.0 * m.log2(freq / A4_HZ);
    (semitones - NoteNumber(m, freq) as real) * 100.0
  }

  /** `NOTES[note_number.rem_euclid(12)]`. */
  function NoteName(n: int): (name: string)
    ensures name == NOTES[RemEuclid(n, 12)]
  {
    NOTES[RemEuclid(n, 12)]
  }

  /** The twelve names are distinct. */
  lemma NotesDistinct(i: nat, j: nat)
    requires i < 12 && j < 12 && NOTES[i] == NOTES[j]
    ensures i == j
  {
    assert NOTES[i][0] == NOTES[j][0];
    assert |NOTES[i]| == |NOTES[j]|;
  }

  /** `4 + (note_number + 9) / 12` with Rust's truncating division, as written. */
  function OctaveAsWritten(n: int): int {
    4 + TruncDiv(n + 9, 12)
  }

  /**
   * The octave of the note `n` semitones from A4, counted from C as in
   * scientific pitch notation: C4 is 9 semitones below A4.
   */
  function Octave(n: int): (o: int)
    ensures 12 * (o - 4) <= n + 9 < 12 * (o - 4) + 12
  {
    4 + (n + 9) / 12
  }

  /** The two agree from C4 upwards. */
  lemma OctaveAgreesFromC4(n: int)
    requires n >= -9
    ensures OctaveAsWritten(n) == Octave(n)
  {
  }

  /** A note name and octave name exactly one note. */
  lemma NoteOctaveInjective(a: int, b: int)
    requires NoteName(a) == NoteName(b) && Octave(a) == Octave(b)
    ensures a == b
  {
    NotesDistinct(RemEuclid(a, 12), RemEuclid(b, 12));
    assert (a + 9) - 12 * (Octave(a) - 4) == (b + 9) - 12 * (Octave(b) - 4) by {
      assert RemEuclid(a, 12) == RemEuclid(b, 12);
    }
  }

  /**
   * As written, B3 (10 semitones below A4) and B4 (2 above) read the same:
   * the truncating division rounds (−1)/12 up to 0, so every note below C4
   * other than a C is labelled one octave too high.
   */
  lemma OctaveAsWrittenCollides()
    ensures NoteName(-10) == NoteName(2) && OctaveAsWritten(-10) == OctaveAsWritten(2) == 4
    ensures Octave(-10) == 3 && Octave(2) == 4
  {
  }

  /** `format!("{}{}", note, octave)`. */
  function NoteLabel(n: int): string {
    NoteName(n) + IntToString(Octave(n))
  }

  datatype TunerInfo = TunerInfo(frequency: Option<real>, note: Option<string>, centsOff: Option<real>, inTune: bool)

  const DEFAULT_INFO: TunerInfo := TunerInfo(None, None, None, false)

  /** `get_tuner_info` for a detected frequency, or the default when there is none. */
  function InfoFor(m: MathLib, detected: Option<real>): (info: TunerInfo)
    ensures detected == None ==> info == DEFAULT_INFO
    ensures detected.Some? ==>
      && info.frequency == detected
      && info.note == Some(NoteLabel(NoteNumber(m, detected.value)))
      && info.centsOff.Some? && -50.0 <= info.centsOff.value <= 50.0
      && (info.inTune <==> -IN_TUNE_CENTS < info.centsOff.value < IN_TUNE_CENTS)
  {
    match detected
    case None => DEFAULT_INFO
    case Some(freq) =>
      var cents := Cents(m, freq);
      TunerInfo(Some(freq), Some(NoteLabel(NoteNumber(m, freq))), Some(cents), Abs(cents) < IN_TUNE_CENTS)
  }

  /** 440 Hz reads as A4, exactly in tune. */
  lemma ConcertA(m: MathLib)
    requires Lawful(m)
    ensures InfoFor(m, Some(A4_HZ)) == TunerInfo(Some(A4_HZ), Some("A4"), Some(0.0), true)
  {
    assert A4_HZ / A4_HZ == 1.0;
    assert NoteNumber(m, A4_HZ) == 0;
    assert Cents(m, A4_HZ) == 0.0;
    assert NoteName(0) == "A";
    assert Octave(0) == 4;
    assert IntToString(4) == "4";
    assert NoteLabel(0) == "A4";
  }

  // ----- the tuner state -----

  class Tuner {
    const buffer: array<real>
    var writePos: nat
    const sampleRate: real
    var detectedFreq: Option<real>
    /** How many samples have been fed in. */
    ghost var received: nat

    ghost predicate Valid()
      reads this
    {
      buffer.Length == BUFFER_SIZE && writePos == received % BUFFER_SIZE
    }

    constructor (sampleRate: real)
      ensures Valid() && fresh(buffer)
      ensures this.sampleRate == sampleRate && received == 0 && detectedFreq == None
      ensures forall i :: 0 <= i < buffer.Length ==> buffer[i] == 0.0
    {
      buffer := new real[4096](_ => 0.0);
      writePos := 0;
      this.sampleRate := sampleRate;
      detectedFreq := None;
      received := 0;
    }

    /**
     * `process_sample`: store the sample, advance the ring position, and
     * re-estimate the pitch after every 1024th sample.
     */
    method ProcessSample(m: MathLib, sample: real)
      requires Valid()
      modifies this`writePos, this`detectedFreq, this`received, buffer
      ensures Valid() && writePos < BUFFER_SIZE
      ensures received == old(received) + 1
      ensures buffer[..] == old(buffer[..])[old(writePos) := sample]
      ensures received % DETECT_INTERVAL == 0 ==> detectedFreq == Detect(m, buffer[..], sampleRate)
      ensures received % DETECT_INTERVAL != 0 ==> detectedFreq == old(detectedFreq)
    {
      buffer[writePos] := sample;
      received := received + 1;
      PositionStep(old(received));
      writePos := (writePos + 1) % 4096;
      if writePos % 1024 == 0 {
        detectedFreq := SimpleAmdf(m);
      }
    }

    /** The AMDF at one lag, summed in a loop over the buffer. */
    method LagDifferenceOf(lag: nat) returns (diff: real)
      requires Valid() && lag <= BUFFER_SIZE
      ensures diff == LagDifference(buffer[..], lag)
    {
      diff := 0.0;
      var i := 0;
      while i < 4096 - lag
        invariant 0 <= i <= 4096 - lag
        invariant diff == LagDiff(buffer[..], lag, i)
      {
        diff := diff + Abs(buffer[i] - buffer[i + lag]);
        i := i + 1;
      }
    }

    /** `simple_amdf` over the current buffer contents. */
    method SimpleAmdf(m: MathLib) returns (freq: Option<real>)
      requires Valid()
      ensures freq == Detect(m, buffer[..], sampleRate)
    {
      var rms := m.sqrt(SumSquares(buffer[..]) / 4096.0);
      if rms < RMS_THRESHOLD {
        return None;
      }
      ghost var b := buffer[..];
      var lo := MinPeriod(sampleRate);
      var hi := LagLimit(sampleRate);
      var bestPeriod := 0;
      var minDiff := F32_MAX;
      if lo < hi {
        var lag := lo;
        while lag < hi
          invariant lo <= lag <= hi
          invariant (bestPeriod, minDiff) == LagSearch(b, lo, lag)
        {
          var diff := LagDifferenceOf(lag);
          assert LagSearch(b, lo, lag + 1) == if diff < minDiff then (lag, diff) else (bestPeriod, minDiff);
          if diff < minDiff {
            minDiff := diff;
            bestPeriod := lag;
          }
          lag := lag + 1;
        }
      }
      if bestPeriod > 0 {
        freq := Some(sampleRate / bestPeriod as real);
      } else {
        freq := None;
      }
    }

    /** `get_tuner_info`. */
    method GetTunerInfo(m: MathLib) returns (info: TunerInfo)
      ensures info == InfoFor(m, detectedFreq)
    {
      match detectedFreq
      case None =>
        info := DEFAULT_INFO;
      case Some(freq) =>
        var cents := Cents(m, freq);
        info := TunerInfo(Some(freq), Some(NoteLabel(NoteNumber(m, freq))), Some(cents), Abs(cents) < IN_TUNE_CENTS);
    }
  }

  /** The ring position after one more sample, and when it is a multiple of 1024. */
  lemma PositionStep(r: nat)
    ensures (r % 4096 + 1) % 4096 == (r + 1) % 4096
    ensures ((r + 1) % 4096) % 1024 == (r + 1) % 1024
  {
  }
}

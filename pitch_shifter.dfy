/*
 * The phase-vocoder pitch shifter (src/audio/pitch_shifter.rs): an input
 * ring of the last FFT_SIZE samples, a frame every HOP_SIZE samples, an
 * overlap-add output ring, and the region-of-influence assignment of
 * spectral bins to magnitude peaks. The spectral transform itself (forward
 * FFT, phase unwrapping, bin shifting, identity phase locking, inverse FFT)
 * is a `Vocoder` parameter.
 */
module PitchShifter {
  import opened Common
  import opened MathLib

  const FFT_SIZE: nat := 2048
  /** FFT_SIZE / 8: 87.5% overlap. */
  const HOP_SIZE: nat := 256
  /** FFT_SIZE / 2 + 1. */
  const NUM_BINS: nat := 1025
  /** FFT_SIZE * 2. */
  const OUTPUT_SIZE: nat := 4096
  /** FFT_SIZE / HOP_SIZE: frames overlapping at each output position. */
  const NUM_OVERLAPS: nat := 8

  /** f64::MAX, the starting minimum of the valley search. */
  const F64_MAX: real := 179769313486231570814527423731704356798070567525844996598917476803157260780028538760589558632766878171540458953514382464234321326889464182768467546703537516986049910576551282076245490090389328944075868508455133942304583236903222948165808559332123348274797826204144723168738177180919299881250404026184124858368.0

  /** `lerp_phase`: interpolate from `ph0` towards `ph1` along the shorter way round. */
  function LerpPhase(ph0: real, ph1: real, t: real): real {
    ph0 + WrapPhase(ph1 - ph0) * t
  }

  /** `d - round(d / 2π)·2π`. */
  function WrapPhase(d: real): real {
    d - (Round(d / (2.0 * PI)) as real) * 2.0 * PI
  }

  /** The wrapped difference lies in [-π, π] and differs from `d` by whole turns. */
  lemma WrapPhaseRange(d: real) returns (n: int)
    ensures -PI <= WrapPhase(d) <= PI
    ensures WrapPhase(d) == d - (n as real) * 2.0 * PI
  {
    var q := d / (2.0 * PI);
    n := Round(q);
    assert d == q * (2.0 * PI);
    assert WrapPhase(d) == (q - n as real) * (2.0 * PI);
  }

  /** At t = 0 the interpolation gives its start phase; at t = 1 a phase a whole number of turns from the end. */
  lemma LerpPhaseEnds(ph0: real, ph1: real) returns (n: int)
    ensures LerpPhase(ph0, ph1, 0.0) == ph0
    ensures LerpPhase(ph0, ph1, 1.0) == ph1 - (n as real) * 2.0 * PI
  {
    n := WrapPhaseRange(ph1 - ph0);
  }

  // ---------------------------------------------------------------------
  // Window and overlap-add normalisation

  /** The Hann window `0.5·(1 − cos(2π·i/N))`. */
  function HannWindow(m: MathLib): (w: seq<real>)
    ensures |w| == FFT_SIZE
  {
    seq(FFT_SIZE, i => 0.5 * (1.0 - m.cos(2.0 * PI * (i as real) / (FFT_SIZE as real))))
  }

  /** Every window value lies in [0, 1], and the middle one is exactly 1. */
  lemma HannWindowShape(m: MathLib)
    requires Lawful(m)
    ensures forall i :: 0 <= i < FFT_SIZE ==> 0.0 <= HannWindow(m)[i] <= 1.0
    ensures HannWindow(m)[FFT_SIZE / 2] == 1.0
  {
    var x := 2.0 * PI * ((FFT_SIZE / 2) as real) / (FFT_SIZE as real);
    assert x == PI;
  }

  /** Σ_{k < n} w[i + k·HOP]² — the inner sum of the COLA computation. */
  function OverlapSquares(w: seq<real>, i: nat, n: nat): (r: real)
    requires |w| == FFT_SIZE && i < HOP_SIZE && n <= NUM_OVERLAPS
    ensures r >= 0.0
  {
    if n == 0 then 0.0 else OverlapSquares(w, i, n - 1) + w[i + (n - 1) * HOP_SIZE] * w[i + (n - 1) * HOP_SIZE]
  }

  /** Σ_{i < n} OverlapSquares(w, i, NUM_OVERLAPS) — the outer sum. */
  function PositionSquares(w: seq<real>, n: nat): (r: real)
    requires |w| == FFT_SIZE && n <= HOP_SIZE
    ensures r >= 0.0
  {
    if n == 0 then 0.0 else PositionSquares(w, n - 1) + OverlapSquares(w, n - 1, NUM_OVERLAPS)
  }

  /** The mean over one hop of the summed squared window. */
  function ColaSum(w: seq<real>): real
    requires |w| == FFT_SIZE
  {
    PositionSquares(w, HOP_SIZE) / (HOP_SIZE as real)
  }

  lemma {:induction false} OverlapSquaresMiddle(w: seq<real>, n: nat)
    requires |w| == FFT_SIZE && NUM_OVERLAPS / 2 < n <= NUM_OVERLAPS
    ensures OverlapSquares(w, 0, n) >= w[FFT_SIZE / 2] * w[FFT_SIZE / 2]
  {
    if n > NUM_OVERLAPS / 2 + 1 {
      OverlapSquaresMiddle(w, n - 1);
    }
  }

  lemma {:induction false} PositionSquaresFirst(w: seq<real>, n: nat)
    requires |w| == FFT_SIZE && 0 < n <= HOP_SIZE
    ensures PositionSquares(w, n) >= OverlapSquares(w, 0, NUM_OVERLAPS)
  {
    if n > 1 {
      PositionSquaresFirst(w, n - 1);
    }
  }

  /**
   * `output_scale = 1 / (FFT_SIZE · cola_sum)`. A window whose middle value
   * is 1, as the Hann window's is, makes the COLA sum at least 1/HOP_SIZE,
   * so the scale is a positive number.
   */
  function OutputScale(w: seq<real>): (r: real)
    requires |w| == FFT_SIZE && w[FFT_SIZE / 2] == 1.0
    ensures r > 0.0
  {
    OverlapSquaresMiddle(w, NUM_OVERLAPS);
    PositionSquaresFirst(w, HOP_SIZE);
    assert PositionSquares(w, HOP_SIZE) >= 1.0;
    1.0 / ((FFT_SIZE as real) * ColaSum(w))
  }

  /** The output scale the Hann window gives. */
  function HannScale(m: MathLib): (r: real)
    requires Lawful(m)
    ensures r > 0.0
  {
    HannWindowShape(m);
    OutputScale(HannWindow(m))
  }

  /** `vec![0.0; n]`. */
  function Zeros(n: nat): (r: seq<real>)
    ensures |r| == n && forall i :: 0 <= i < n ==> r[i] == 0.0
  {
    seq(n, _ => 0.0)
  }

  // ---------------------------------------------------------------------
  // Peaks and regions of influence

  /** `max(fold(0, max), 1e-12)`: the largest magnitude, at least 1e-12. */
  function MaxMagnitude(mag: seq<real>): (r: real)
    ensures r >= 0.000000000001
    ensures forall k :: 0 <= k < |mag| ==> mag[k] <= r
  {
    Max(FoldMax(mag), 0.000000000001)
  }

  function FoldMax(mag: seq<real>): (r: real)
    ensures r >= 0.0
    ensures forall k :: 0 <= k < |mag| ==> mag[k] <= r
  {
    if |mag| == 0 then 0.0 else Max(FoldMax(mag[..|mag| - 1]), mag[|mag| - 1])
  }

  /** 2% of the largest magnitude. */
  function PeakThreshold(mag: seq<real>): (r: real)
    ensures r > 0.0
  {
    MaxMagnitude(mag) * 0.02
  }

  /** An interior bin above the threshold and no lower than either neighbour. */
  predicate IsLocalPeak(mag: seq<real>, thresh: real, j: nat)
    requires |mag| == NUM_BINS && 0 < j < NUM_BINS - 1
  {
    mag[j] > thresh && mag[j] >= mag[j - 1] && mag[j] >= mag[j + 1]
  }

  /** The interior peaks among bins 1 .. j-1, in increasing order. */
  function InteriorPeaks(mag: seq<real>, thresh: real, j: nat): (r: seq<nat>)
    requires |mag| == NUM_BINS && 1 <= j <= NUM_BINS - 1
    ensures forall a :: 0 <= a < |r| ==> 1 <= r[a] < j
    ensures forall a, b :: 0 <= a < b < |r| ==> r[a] < r[b]
    ensures forall k :: 1 <= k < j ==> (k in r <==> IsLocalPeak(mag, thresh, k))
  {
    if j == 1 then []
    else InteriorPeaks(mag, thresh, j - 1) + (if IsLocalPeak(mag, thresh, j - 1) then [j - 1] else [])
  }

  lemma InteriorPeaksStep(mag: seq<real>, thresh: real, j: nat)
    requires |mag| == NUM_BINS && 1 <= j < NUM_BINS - 1
    ensures InteriorPeaks(mag, thresh, j + 1)
      == InteriorPeaks(mag, thresh, j) + (if IsLocalPeak(mag, thresh, j) then [j] else [])
  {
  }

  /** The peaks list: DC, the interior peaks, Nyquist. */
  function PeakList(mag: seq<real>): seq<nat>
    requires |mag| == NUM_BINS
  {
    [0] + InteriorPeaks(mag, PeakThreshold(mag), NUM_BINS - 1) + [NUM_BINS - 1]
  }

  /** Starts at DC, ends at Nyquist, strictly increasing. */
  ghost predicate PeakShaped(peaks: seq<nat>) {
    && |peaks| >= 2
    && peaks[0] == 0
    && peaks[|peaks| - 1] == NUM_BINS - 1
    && forall a, b :: 0 <= a < b < |peaks| ==> peaks[a] < peaks[b]
  }

  /**
   * The peaks list is shaped as the region split needs, and an interior
   * bin is in it exactly when it is a local maximum above 2% of the largest
   * magnitude.
   */
  lemma PeakListShape(mag: seq<real>)
    requires |mag| == NUM_BINS
    ensures PeakShaped(PeakList(mag))
    ensures forall k :: 0 < k < NUM_BINS - 1 ==> (k in PeakList(mag) <==> IsLocalPeak(mag, PeakThreshold(mag), k))
  {
    var inner := InteriorPeaks(mag, PeakThreshold(mag), NUM_BINS - 1);
    var p := PeakList(mag);
    forall a, b | 0 <= a < b < |p|
      ensures p[a] < p[b]
    {
      if a > 0 && b < |p| - 1 {
        assert p[a] == inner[a - 1] && p[b] == inner[b - 1];
      } else if a > 0 {
        assert p[a] == inner[a - 1];
      } else if b < |p| - 1 {
        assert p[b] == inner[b - 1];
      }
    }
    forall k | 0 < k < NUM_BINS - 1
      ensures k in p <==> k in inner
    {
      if k in p {
        var a :| 0 <= a < |p| && p[a] == k;
        assert 0 < a < |p| - 1 && inner[a - 1] == k;
      }
      if k in inner {
        var a :| 0 <= a < |inner| && inner[a] == k;
        assert p[a + 1] == k;
      }
    }
  }

  /**
   * The valley search after bins l .. j: the first bin of smallest
   * magnitude (the scan replaces the candidate only on a strictly smaller
   * magnitude).
   */
  function Valley(mag: seq<real>, l: nat, j: nat): (v: nat)
    requires l <= j < |mag|
    ensures l <= v <= j
    ensures forall k :: l <= k <= j ==> mag[v] <= mag[k]
    ensures forall k :: l <= k < v ==> mag[k] > mag[v]
  {
    if j == l then l
    else
      var v := Valley(mag, l, j - 1);
      if mag[j] < mag[v] then j else v
  }

  /** Within the window [l, r]: the left peak owns bins up to and including the valley, the right one the rest. */
  function WindowOwner(mag: seq<real>, l: nat, r: nat, j: nat): nat
    requires l <= r < |mag|
  {
    if j <= Valley(mag, l, r) then l else r
  }

  /** The window [peaks[i], peaks[i+1]) that holds bin j, searching from window `from`. */
  function WindowIndex(peaks: seq<nat>, j: nat, from: nat): (i: nat)
    requires PeakShaped(peaks) && from < |peaks| - 1 && peaks[from] <= j < NUM_BINS - 1
    ensures from <= i < |peaks| - 1 && peaks[i] <= j < peaks[i + 1]
    decreases |peaks| - from
  {
    if j < peaks[from + 1] then from else WindowIndex(peaks, j, from + 1)
  }

  /** Windows do not overlap: the one holding j is the only one. */
  lemma WindowIndexUnique(peaks: seq<nat>, j: nat, i: nat)
    requires PeakShaped(peaks) && i < |peaks| - 1 && peaks[i] <= j < peaks[i + 1]
    ensures WindowIndex(peaks, j, 0) == i
  {
    var w := WindowIndex(peaks, j, 0);
  }

  /** The peak that owns bin j once every window has been split. */
  function Owner(mag: seq<real>, peaks: seq<nat>, j: nat): nat
    requires |mag| == NUM_BINS && PeakShaped(peaks) && j < NUM_BINS
  {
    if j < NUM_BINS - 1 then
      var i := WindowIndex(peaks, j, 0);
      WindowOwner(mag, peaks[i], peaks[i + 1], j)
    else
      WindowOwner(mag, peaks[|peaks| - 2], peaks[|peaks| - 1], j)
  }

  /** Every bin is owned by one of the two peaks that bracket it, and every peak below Nyquist owns itself. */
  lemma OwnerBracketed(mag: seq<real>, peaks: seq<nat>, j: nat)
    requires |mag| == NUM_BINS && PeakShaped(peaks) && j < NUM_BINS
    ensures exists i :: (0 <= i < |peaks| - 1 && peaks[i] <= j <= peaks[i + 1]
                         && (Owner(mag, peaks, j) == peaks[i] || Owner(mag, peaks, j) == peaks[i + 1]))
    ensures j in peaks && j < NUM_BINS - 1 ==> Owner(mag, peaks, j) == j
  {
    if j < NUM_BINS - 1 {
      var i := WindowIndex(peaks, j, 0);
      if j in peaks {
        var a :| 0 <= a < |peaks| && peaks[a] == j;
      }
    } else {
      var i := |peaks| - 2;
      assert peaks[i] <= j <= peaks[i + 1];
    }
  }

  /** Neighbouring bins never have their owners in decreasing order. */
  lemma OwnerStep(mag: seq<real>, peaks: seq<nat>, j: nat, next: nat)
    requires |mag| == NUM_BINS && PeakShaped(peaks) && next == j + 1 && next < NUM_BINS
    ensures Owner(mag, peaks, j) <= Owner(mag, peaks, next)
  {
    var i := WindowIndex(peaks, j, 0);
    if next < NUM_BINS - 1 {
      var i' := WindowIndex(peaks, next, 0);
      if i' != i {
        assert peaks[i + 1] == next;
        WindowIndexUnique(peaks, next, i + 1);
      }
    } else {
      assert peaks[i + 1] == NUM_BINS - 1;
    }
  }

  /** The owner is non-decreasing in the bin index. */
  lemma {:induction false} OwnerMonotone(mag: seq<real>, peaks: seq<nat>, j: nat, k: nat)
    requires |mag| == NUM_BINS && PeakShaped(peaks) && j <= k < NUM_BINS
    ensures Owner(mag, peaks, j) <= Owner(mag, peaks, k)
    decreases k - j
  {
    if j == k {
      assert Owner(mag, peaks, j) == Owner(mag, peaks, k);
    } else {
      var m := k - 1;
      OwnerMonotone(mag, peaks, j, m);
      OwnerStep(mag, peaks, m, k);
      assert Owner(mag, peaks, j) <= Owner(mag, peaks, m) <= Owner(mag, peaks, k);
    }
  }

  // ---------------------------------------------------------------------
  // The spectral transform, as a parameter

  /** What the analysis and bin-shifting half of a frame leaves behind. */
  datatype Spectrum = Spectrum(lastPhase: seq<real>, accumPhase: seq<real>, mag: seq<real>, phase: seq<real>,
                               analysisPhase: seq<real>)

  /**
   * `shift` is the analysis FFT, phase unwrapping and bin shift of a frame
   * (its arguments: the windowed frame, last_phase, accum_phase,
   * first_frame, the pitch ratio; it also returns the frame's analysis
   * phases); `synthesise` is the identity phase locking, the output
   * spectrum and the inverse FFT (its arguments: the shifted magnitudes and
   * phases, the analysis phases the locking interpolates, the owning peak of
   * every bin, the ratio).
   */
  datatype Vocoder = Vocoder(
    shift: (seq<real>, seq<real>, seq<real>, bool, real) -> Spectrum,
    synthesise: (seq<real>, seq<real>, seq<real>, seq<nat>, real) -> seq<real>)

  /** Every buffer comes back at its full size, with finite non-negative magnitudes. */
  ghost predicate VocoderLawful(v: Vocoder) {
    && (forall frame, lp, ap, first, ratio ::
          && |v.shift(frame, lp, ap, first, ratio).lastPhase| == NUM_BINS
          && |v.shift(frame, lp, ap, first, ratio).accumPhase| == NUM_BINS
          && |v.shift(frame, lp, ap, first, ratio).phase| == NUM_BINS
          && MagnitudesBounded(v.shift(frame, lp, ap, first, ratio).mag))
    && (forall mag, phase, analysis, owners, ratio :: |v.synthesise(mag, phase, analysis, owners, ratio)| == FFT_SIZE)
  }

  /** The laws of a lawful vocoder at one call. */
  lemma VocoderCall(v: Vocoder, frame: seq<real>, lp: seq<real>, ap: seq<real>, first: bool, ratio: real,
                    mag: seq<real>, phase: seq<real>, analysis: seq<real>, owners: seq<nat>)
    requires VocoderLawful(v)
    ensures var s := v.shift(frame, lp, ap, first, ratio);
      |s.lastPhase| == NUM_BINS && |s.accumPhase| == NUM_BINS && |s.phase| == NUM_BINS && MagnitudesBounded(s.mag)
    ensures |v.synthesise(mag, phase, analysis, owners, ratio)| == FFT_SIZE
  {
  }

  /** NUM_BINS magnitudes, each non-negative and below f64::MAX. */
  predicate MagnitudesBounded(mag: seq<real>) {
    |mag| == NUM_BINS && forall k :: 0 <= k < NUM_BINS ==> 0.0 <= mag[k] < F64_MAX
  }

  // ---------------------------------------------------------------------
  // Ring and overlap-add specifications

  /** The sample fed FFT_SIZE - i samples ago (zero before the stream began). */
  function Recent(history: seq<real>, i: nat): real
    requires i < FFT_SIZE
  {
    if |history| + i >= FFT_SIZE then history[|history| + i - FFT_SIZE] else 0.0
  }

  /** The last FFT_SIZE samples fed, oldest first. */
  function LastInputs(history: seq<real>): (r: seq<real>)
    ensures |r| == FFT_SIZE
  {
    seq(FFT_SIZE, i requires 0 <= i < FFT_SIZE => Recent(history, i))
  }

  /** `ring`, read from `pos` on, holds the last FFT_SIZE samples of `history`, oldest first. */
  ghost predicate RingHoldsOn(ring: seq<real>, pos: nat, history: seq<real>) {
    |ring| == FFT_SIZE && forall i :: 0 <= i < FFT_SIZE ==> ring[(pos + i) % FFT_SIZE] == Recent(history, i)
  }

  /**
   * Overwriting the oldest sample with a new one and moving the position on
   * by one leaves the ring holding the last FFT_SIZE samples, new one last.
   */
  lemma RingPush(ring: seq<real>, pos: nat, history: seq<real>, x: real)
    requires RingHoldsOn(ring, pos, history) && pos < FFT_SIZE
    ensures RingHoldsOn(ring[pos := x], (pos + 1) % FFT_SIZE, history + [x])
  {
    var ring', pos', history' := ring[pos := x], (pos + 1) % FFT_SIZE, history + [x];
    ModSmall(pos + 1, FFT_SIZE);
    forall i | 0 <= i < FFT_SIZE
      ensures ring'[(pos' + i) % FFT_SIZE] == Recent(history', i)
    {
      if i < FFT_SIZE - 1 {
        ModSmall(pos + i + 1, FFT_SIZE);
        assert (pos' + i) % FFT_SIZE == (pos + (i + 1)) % FFT_SIZE;
        assert Recent(history', i) == Recent(history, i + 1);
      } else {
        assert (pos' + i) % FFT_SIZE == pos;
      }
    }
  }

  function Windowed(frame: seq<real>, window: seq<real>): (r: seq<real>)
    requires |frame| == FFT_SIZE && |window| == FFT_SIZE
    ensures |r| == FFT_SIZE
  {
    seq(FFT_SIZE, i requires 0 <= i < FFT_SIZE => frame[i] * window[i])
  }

  /** What a synthesised frame adds to the output ring: windowed and scaled. */
  function Contribution(synth: seq<real>, window: seq<real>, scale: real): (r: seq<real>)
    requires |synth| == FFT_SIZE && |window| == FFT_SIZE
    ensures |r| == FFT_SIZE
  {
    seq(FFT_SIZE, i requires 0 <= i < FFT_SIZE => synth[i] * window[i] * scale)
  }

  /** How far position p lies after `start`, going round the output ring. */
  function Offset(p: nat, start: nat): nat
    requires p < OUTPUT_SIZE && start < OUTPUT_SIZE
  {
    if p >= start then p - start else p + OUTPUT_SIZE - start
  }

  /** The ring after adding `c` at positions start, start+1, … (mod OUTPUT_SIZE). */
  function OverlapAdded(acc: seq<real>, start: nat, c: seq<real>): (r: seq<real>)
    requires |acc| == OUTPUT_SIZE && start < OUTPUT_SIZE && |c| == FFT_SIZE
    ensures |r| == OUTPUT_SIZE
  {
    seq(OUTPUT_SIZE, p requires 0 <= p < OUTPUT_SIZE =>
      if Offset(p, start) < FFT_SIZE then acc[p] + c[Offset(p, start)] else acc[p])
  }

  /**
   * A frame's contribution lands on FFT_SIZE consecutive positions of the
   * ring, and the other FFT_SIZE positions keep their value.
   */
  lemma OverlapAddedSpan(acc: seq<real>, start: nat, c: seq<real>, i: nat)
    requires |acc| == OUTPUT_SIZE && start < OUTPUT_SIZE && |c| == FFT_SIZE && i < OUTPUT_SIZE
    ensures var p := (start + i) % OUTPUT_SIZE;
      OverlapAdded(acc, start, c)[p] == if i < FFT_SIZE then acc[p] + c[i] else acc[p]
  {
    ModSmall(start + i, OUTPUT_SIZE);
  }

  /** How the counters move when one more sample is fed. */
  lemma CountersStep(s: nat)
    ensures (s + 1) % FFT_SIZE == (s % FFT_SIZE + 1) % FFT_SIZE
    ensures (s + 1) % OUTPUT_SIZE == (s % OUTPUT_SIZE + 1) % OUTPUT_SIZE
    ensures s % HOP_SIZE + 1 < HOP_SIZE ==> (s + 1) % HOP_SIZE == s % HOP_SIZE + 1 && (s + 1) / HOP_SIZE == s / HOP_SIZE
    ensures s % HOP_SIZE + 1 == HOP_SIZE ==> (s + 1) % HOP_SIZE == 0 && (s + 1) / HOP_SIZE == s / HOP_SIZE + 1
  {
    ModSucc(s, FFT_SIZE);
    ModSucc(s, OUTPUT_SIZE);
    ModSucc(s, HOP_SIZE);
  }

  /** One more hop moves the write position on by HOP_SIZE round the output ring. */
  lemma WriteStep(f: nat)
    ensures (((f + 1) * HOP_SIZE) % OUTPUT_SIZE + HOP_SIZE) % OUTPUT_SIZE == ((f + 2) * HOP_SIZE) % OUTPUT_SIZE
  {
  }

  class PitchShifter {
    var ratio: real
    const window: seq<real>
    const outputScale: real
    const inputRing: array<real>
    var inputPos: nat
    var hopCounter: nat
    var lastPhase: seq<real>
    var accumPhase: seq<real>
    const outputAccum: array<real>
    var outputRead: nat
    var outputWrite: nat
    var shiftedMag: seq<real>
    var shiftedPhase: seq<real>
    var analysisPhase: seq<real>
    const peakBin: array<nat>
    var peaks: seq<nat>
    var synthFrame: seq<real>
    var firstFrame: bool
    /** Every sample fed so far. */
    ghost var history: seq<real>
    /** Frames processed so far. */
    ghost var framesDone: nat
    /** Every sample emitted so far, one per sample fed. */
    ghost var outputs: seq<real>

    /** Buffer sizes and index ranges. */
    ghost predicate Shaped()
      reads this
    {
      && inputRing.Length == FFT_SIZE && outputAccum.Length == OUTPUT_SIZE && peakBin.Length == NUM_BINS
      && inputRing != outputAccum
      && |window| == FFT_SIZE && |synthFrame| == FFT_SIZE
      && |lastPhase| == NUM_BINS && |accumPhase| == NUM_BINS && |shiftedPhase| == NUM_BINS
      && MagnitudesBounded(shiftedMag)
      && inputPos < FFT_SIZE && hopCounter < HOP_SIZE && outputRead < OUTPUT_SIZE && outputWrite < OUTPUT_SIZE
    }

    /**
     * The counters are functions of the number of samples fed: the ring
     * positions wrap with it, a frame has been processed for every full
     * hop, the write position moves one hop per frame from HOP_SIZE on, and
     * the input ring holds the last FFT_SIZE samples starting at inputPos.
     */
    ghost predicate Valid()
      reads this, inputRing
    {
      && Shaped()
      && inputPos == |history| % FFT_SIZE
      && outputRead == |history| % OUTPUT_SIZE
      && hopCounter == |history| % HOP_SIZE
      && framesDone == |history| / HOP_SIZE
      && outputWrite == ((framesDone + 1) * HOP_SIZE) % OUTPUT_SIZE
      && RingHolds()
    }

    /** The input ring, read from inputPos on, holds the last FFT_SIZE samples fed. */
    ghost predicate RingHolds()
      reads this`inputPos, this`history, inputRing
    {
      inputRing.Length == FFT_SIZE && RingHoldsOn(inputRing[..], inputPos, history)
    }

    /** `PitchShifter::new`: zeroed rings and phases, write one hop ahead of read, the first frame pending. */
    constructor (m: MathLib, semitones: real)
      requires Lawful(m)
      ensures Valid() && fresh(inputRing) && fresh(outputAccum) && fresh(peakBin)
      ensures ratio == m.pow(2.0, semitones / 12.0)
      ensures window == HannWindow(m) && outputScale == HannScale(m)
      ensures history == [] && outputs == [] && outputWrite == HOP_SIZE && firstFrame && peaks == []
      ensures lastPhase == Zeros(NUM_BINS) && accumPhase == Zeros(NUM_BINS)
      ensures forall p :: 0 <= p < OUTPUT_SIZE ==> outputAccum[p] == 0.0
    {
      ratio := m.pow(2.0, semitones / 12.0);
      window := HannWindow(m);
      outputScale := HannScale(m);
      inputRing := new real[FFT_SIZE](_ => 0.0);
      inputPos := 0;
      hopCounter := 0;
      lastPhase := Zeros(NUM_BINS);
      accumPhase := Zeros(NUM_BINS);
      outputAccum := new real[OUTPUT_SIZE](_ => 0.0);
      outputRead := 0;
      outputWrite := HOP_SIZE;
      shiftedMag := Zeros(NUM_BINS);
      shiftedPhase := Zeros(NUM_BINS);
      analysisPhase := Zeros(NUM_BINS);
      peakBin := new nat[NUM_BINS](_ => 0);
      peaks := [];
      synthFrame := Zeros(FFT_SIZE);
      firstFrame := true;
      history := [];
      framesDone := 0;
      outputs := [];
      new;
      assert Shaped();
      assert inputPos == |history| % FFT_SIZE && outputRead == |history| % OUTPUT_SIZE;
      assert hopCounter == |history| % HOP_SIZE && framesDone == |history| / HOP_SIZE;
      assert (framesDone + 1) * HOP_SIZE == HOP_SIZE;
      ModSmall(HOP_SIZE, OUTPUT_SIZE);
      forall i | 0 <= i < FFT_SIZE
        ensures inputRing[..][(inputPos + i) % FFT_SIZE] == Recent(history, i)
      {
        ModSmall(inputPos + i, FFT_SIZE);
      }
    }

    /** `set_semitones`: a new ratio, both phase arrays zeroed, the next frame seeds its phases afresh. */
    method SetSemitones(m: MathLib, semitones: real)
      modifies this`ratio, this`lastPhase, this`accumPhase, this`firstFrame
      ensures ratio == m.pow(2.0, semitones / 12.0)
      ensures lastPhase == Zeros(NUM_BINS) && accumPhase == Zeros(NUM_BINS) && firstFrame
    {
      ratio := m.pow(2.0, semitones / 12.0);
      lastPhase := Zeros(NUM_BINS);
      accumPhase := Zeros(NUM_BINS);
      firstFrame := true;
    }

    /** The analysis frame: the ring read from inputPos on (oldest sample first), times the window. */
    method LoadFrame() returns (frame: seq<real>)
      requires Shaped() && RingHolds()
      ensures frame == Windowed(LastInputs(history), window)
    {
      frame := [];
      for i := 0 to FFT_SIZE
        invariant |frame| == i
        invariant forall k :: 0 <= k < i ==> frame[k] == Recent(history, k) * window[k]
      {
        var idx := (inputPos + i) % FFT_SIZE;
        frame := frame + [inputRing[idx] * window[i]];
      }
      assert forall k :: 0 <= k < FFT_SIZE ==> frame[k] == Windowed(LastInputs(history), window)[k];
    }

    /**
     * One window of `find_peak_regions`: the valley is the first bin of
     * least magnitude in [l, r]; bins up to it go to l, the rest to r.
     */
    method AssignRegion(l: nat, r: nat)
      requires l < r < NUM_BINS && MagnitudesBounded(shiftedMag) && peakBin.Length == NUM_BINS
      modifies peakBin
      ensures forall j :: l <= j <= r ==> peakBin[j] == WindowOwner(shiftedMag, l, r, j)
      ensures forall j :: 0 <= j < NUM_BINS && (j < l || r < j) ==> peakBin[j] == old(peakBin[j])
    {
      var valley := l;
      var minMag := F64_MAX;
      for j := l to r + 1
        invariant j == l ==> valley == l && minMag == F64_MAX
        invariant j > l ==> valley == Valley(shiftedMag, l, j - 1) && minMag == shiftedMag[valley]
      {
        if shiftedMag[j] < minMag {
          minMag := shiftedMag[j];
          valley := j;
        }
      }
      for j := l to valley + 1
        invariant forall k :: l <= k < j ==> peakBin[k] == l
        invariant forall k :: 0 <= k < NUM_BINS && (k < l || j <= k) ==> peakBin[k] == old(peakBin[k])
      {
        peakBin[j] := l;
      }
      for j := valley + 1 to r + 1
        invariant forall k :: l <= k <= valley ==> peakBin[k] == l
        invariant forall k :: valley < k < j ==> peakBin[k] == r
        invariant forall k :: 0 <= k < NUM_BINS && (k < l || j <= k) ==> peakBin[k] == old(peakBin[k])
      {
        peakBin[j] := r;
      }
    }

    /**
     * `find_peak_regions`: collect the peaks (DC, every interior local
     * maximum above 2% of the largest magnitude, Nyquist), then split every
     * pair of neighbouring peaks at their valley.
     */
    method FindPeakRegions()
      requires MagnitudesBounded(shiftedMag) && peakBin.Length == NUM_BINS
      modifies this`peaks, peakBin
      ensures peaks == PeakList(shiftedMag)
      ensures forall j :: 0 <= j < NUM_BINS ==> peakBin[j] == Owner(shiftedMag, peaks, j)
    {
      CollectPeaks();
      PeakListShape(shiftedMag);
      SplitRegions();
    }

    /** The first half of `find_peak_regions`: the peaks list. */
    method CollectPeaks()
      requires |shiftedMag| == NUM_BINS
      modifies this`peaks
      ensures peaks == PeakList(shiftedMag)
    {
      var mag := shiftedMag;
      var thresh := PeakThreshold(mag);
      var found: seq<nat> := [0];
      var j: nat := 1;
      while j < NUM_BINS - 1
        invariant 1 <= j <= NUM_BINS - 1
        invariant found == [0] + InteriorPeaks(mag, thresh, j)
      {
        InteriorPeaksStep(mag, thresh, j);
        if mag[j] > thresh && mag[j] >= mag[j - 1] && mag[j] >= mag[j + 1] {
          found := found + [j];
        }
        j := j + 1;
      }
      peaks := found + [NUM_BINS - 1];
    }

    /** The second half of `find_peak_regions`: every window split at its valley, left to right. */
    method SplitRegions()
      requires MagnitudesBounded(shiftedMag) && peakBin.Length == NUM_BINS && PeakShaped(peaks)
      modifies peakBin
      ensures forall j :: 0 <= j < NUM_BINS ==> peakBin[j] == Owner(shiftedMag, peaks, j)
    {
      for w := 0 to |peaks| - 1
        invariant forall j :: 0 <= j < peaks[w] ==> peakBin[j] == Owner(shiftedMag, peaks, j)
        invariant w > 0 ==> peakBin[peaks[w]] == WindowOwner(shiftedMag, peaks[w - 1], peaks[w], peaks[w])
      {
        var left := peaks[w];
        var right := peaks[w + 1];
        AssignRegion(left, right);
        forall j | left <= j < right
          ensures peakBin[j] == Owner(shiftedMag, peaks, j)
        {
          WindowIndexUnique(peaks, j, w);
        }
      }
    }

    /** The overlap-add of the synthesised frame, starting at outputWrite. */
    method OverlapAdd()
      requires Shaped()
      modifies outputAccum
      ensures outputAccum[..] == OverlapAdded(old(outputAccum[..]), outputWrite, Contribution(synthFrame, window, outputScale))
    {
      ghost var before := outputAccum[..];
      ghost var c := Contribution(synthFrame, window, outputScale);
      for i := 0 to FFT_SIZE
        invariant forall p :: 0 <= p < OUTPUT_SIZE ==>
          outputAccum[p] == if Offset(p, outputWrite) < i then before[p] + c[Offset(p, outputWrite)] else before[p]
      {
        var pos := (outputWrite + i) % OUTPUT_SIZE;
        ModSmall(outputWrite + i, OUTPUT_SIZE);
        assert Offset(pos, outputWrite) == i;
        outputAccum[pos] := outputAccum[pos] + synthFrame[i] * window[i] * outputScale;
      }
      assert forall p :: 0 <= p < OUTPUT_SIZE ==> outputAccum[..][p] == OverlapAdded(before, outputWrite, c)[p];
    }

    /**
     * `process_frame`: analyse the last FFT_SIZE samples, shift, assign
     * bins to peaks, synthesise, overlap-add at outputWrite, and move
     * outputWrite on by one hop.
     */
    method ProcessFrame(v: Vocoder)
      requires Shaped() && RingHolds() && VocoderLawful(v)
      modifies this`lastPhase, this`accumPhase, this`shiftedMag, this`shiftedPhase, this`analysisPhase, this`firstFrame
      modifies this`peaks, this`synthFrame, this`outputWrite, peakBin, outputAccum
      ensures Shaped() && RingHolds()
      ensures var s := v.shift(Windowed(LastInputs(history), window), old(lastPhase), old(accumPhase), old(firstFrame), ratio);
        lastPhase == s.lastPhase && accumPhase == s.accumPhase && shiftedMag == s.mag && shiftedPhase == s.phase
        && analysisPhase == s.analysisPhase
      ensures !firstFrame
      ensures peaks == PeakList(shiftedMag)
      ensures forall j :: 0 <= j < NUM_BINS ==> peakBin[j] == Owner(shiftedMag, peaks, j)
      ensures synthFrame == v.synthesise(shiftedMag, shiftedPhase, analysisPhase, peakBin[..], ratio)
      ensures outputAccum[..] == OverlapAdded(old(outputAccum[..]), old(outputWrite), Contribution(synthFrame, window, outputScale))
      ensures outputWrite == (old(outputWrite) + HOP_SIZE) % OUTPUT_SIZE
    {
      Analyse(v);
      Synthesise(v);
    }

    /** The analysis half of `process_frame`: the windowed frame through the shift, then the peak regions. */
    method Analyse(v: Vocoder)
      requires Shaped() && RingHolds() && VocoderLawful(v)
      modifies this`lastPhase, this`accumPhase, this`shiftedMag, this`shiftedPhase, this`analysisPhase, this`firstFrame
      modifies this`peaks, peakBin
      ensures Shaped() && RingHolds()
      ensures var s := v.shift(Windowed(LastInputs(history), window), old(lastPhase), old(accumPhase), old(firstFrame), ratio);
        lastPhase == s.lastPhase && accumPhase == s.accumPhase && shiftedMag == s.mag && shiftedPhase == s.phase
        && analysisPhase == s.analysisPhase
      ensures !firstFrame
      ensures peaks == PeakList(shiftedMag)
      ensures forall j :: 0 <= j < NUM_BINS ==> peakBin[j] == Owner(shiftedMag, peaks, j)
    {
      var frame := LoadFrame();
      var s := v.shift(frame, lastPhase, accumPhase, firstFrame, ratio);
      VocoderCall(v, frame, lastPhase, accumPhase, firstFrame, ratio, [], [], [], []);
      lastPhase, accumPhase, shiftedMag, shiftedPhase, analysisPhase := s.lastPhase, s.accumPhase, s.mag, s.phase, s.analysisPhase;
      firstFrame := false;
      FindPeakRegions();
    }

    /** The synthesis half of `process_frame`: synthesise, overlap-add at outputWrite, advance it one hop. */
    method Synthesise(v: Vocoder)
      requires Shaped() && VocoderLawful(v)
      modifies this`synthFrame, this`outputWrite, outputAccum
      ensures Shaped()
      ensures synthFrame == v.synthesise(shiftedMag, shiftedPhase, analysisPhase, peakBin[..], ratio)
      ensures outputAccum[..] == OverlapAdded(old(outputAccum[..]), old(outputWrite), Contribution(synthFrame, window, outputScale))
      ensures outputWrite == (old(outputWrite) + HOP_SIZE) % OUTPUT_SIZE
    {
      VocoderCall(v, [], [], [], false, ratio, shiftedMag, shiftedPhase, analysisPhase, peakBin[..]);
      synthFrame := v.synthesise(shiftedMag, shiftedPhase, analysisPhase, peakBin[..], ratio);
      OverlapAdd();
      outputWrite := (outputWrite + HOP_SIZE) % OUTPUT_SIZE;
    }

    /** The ring half of a `process_block` iteration: store the sample, advance inputPos. */
    method Feed(x: real)
      requires Shaped() && RingHolds()
      modifies inputRing, this`inputPos, this`history
      ensures Shaped() && RingHolds()
      ensures history == old(history) + [x] && inputPos == (old(inputPos) + 1) % FFT_SIZE
      ensures old(inputPos) == |old(history)| % FFT_SIZE ==> inputPos == |history| % FFT_SIZE
      ensures inputRing[old(inputPos)] == x
    {
      CountersStep(|history|);
      RingPush(inputRing[..], inputPos, history, x);
      inputRing[inputPos] := x;
      history := history + [x];
      inputPos := (inputPos + 1) % FFT_SIZE;
    }

    /**
     * One iteration of `process_block`: store the sample in the ring,
     * process a frame when a full hop has arrived, then emit the output
     * cell at outputRead and clear it.
     */
    method ProcessSample(v: Vocoder, x: real) returns (y: real)
      requires Valid() && VocoderLawful(v)
      modifies this`inputPos, this`hopCounter, this`outputRead, this`history, this`framesDone
      modifies this`lastPhase, this`accumPhase, this`shiftedMag, this`shiftedPhase, this`analysisPhase, this`firstFrame
      modifies this`peaks, this`synthFrame, this`outputWrite, this`outputs, inputRing, peakBin, outputAccum
      ensures Valid() && history == old(history) + [x] && outputs == old(outputs) + [y]
      ensures framesDone == old(framesDone) + (if old(hopCounter) + 1 == HOP_SIZE then 1 else 0)
      ensures old(hopCounter) + 1 < HOP_SIZE ==>
        && y == old(outputAccum[outputRead])
        && outputAccum[..] == old(outputAccum[..])[old(outputRead) := 0.0]
        && synthFrame == old(synthFrame) && peaks == old(peaks) && firstFrame == old(firstFrame)
      ensures old(hopCounter) + 1 == HOP_SIZE ==>
        var added := OverlapAdded(old(outputAccum[..]), old(outputWrite), Contribution(synthFrame, window, outputScale));
        && y == added[old(outputRead)]
        && outputAccum[..] == added[old(outputRead) := 0.0]
        && !firstFrame
        && shiftedMag == v.shift(Windowed(LastInputs(history), window), old(lastPhase), old(accumPhase), old(firstFrame), ratio).mag
        && synthFrame == v.synthesise(shiftedMag, shiftedPhase, analysisPhase, peakBin[..], ratio)
    {
      WriteStep(framesDone);
      Feed(x);
      var framed := Tick();
      if framed {
        ProcessFrame(v);
      }
      y := Emit();
    }

    /** The hop counter of a `process_block` iteration: it wraps to 0, and a frame is due, on every HOP_SIZE-th sample. */
    method Tick() returns (framed: bool)
      requires hopCounter == (|history| - 1) % HOP_SIZE && framesDone == (|history| - 1) / HOP_SIZE && |history| > 0
      modifies this`hopCounter, this`framesDone
      ensures framed <==> old(hopCounter) + 1 == HOP_SIZE
      ensures hopCounter == |history| % HOP_SIZE && framesDone == |history| / HOP_SIZE
      ensures framesDone == old(framesDone) + (if framed then 1 else 0)
    {
      CountersStep(|history| - 1);
      hopCounter := hopCounter + 1;
      framed := false;
      if hopCounter >= HOP_SIZE {
        hopCounter := 0;
        framed := true;
        framesDone := framesDone + 1;
      }
    }

    /** The output half of a `process_block` iteration: read the cell at outputRead, clear it, move on. */
    method Emit() returns (y: real)
      requires outputAccum.Length == OUTPUT_SIZE && outputRead == (|history| - 1) % OUTPUT_SIZE && |history| > 0
      modifies outputAccum, this`outputRead, this`outputs
      ensures y == old(outputAccum[outputRead]) && outputs == old(outputs) + [y]
      ensures outputAccum[..] == old(outputAccum[..])[old(outputRead) := 0.0]
      ensures outputRead == |history| % OUTPUT_SIZE
    {
      CountersStep(|history| - 1);
      y := outputAccum[outputRead];
      outputAccum[outputRead] := 0.0;
      outputRead := (outputRead + 1) % OUTPUT_SIZE;
      outputs := outputs + [y];
    }

    /** `process_block`: every sample in turn through the ring, the frames and the overlap-add output. */
    method ProcessBlock(v: Vocoder, data: array<real>)
      requires Valid() && VocoderLawful(v) && data != inputRing && data != outputAccum
      modifies this`inputPos, this`hopCounter, this`outputRead, this`history, this`framesDone
      modifies this`lastPhase, this`accumPhase, this`shiftedMag, this`shiftedPhase, this`analysisPhase, this`firstFrame
      modifies this`peaks, this`synthFrame, this`outputWrite, this`outputs, inputRing, peakBin, outputAccum, data
      ensures Valid() && history == old(history) + old(data[..])
      ensures framesDone == (|old(history)| + data.Length) / HOP_SIZE
      ensures outputs == old(outputs) + data[..]
    {
      for k := 0 to data.Length
        invariant Valid() && history == old(history) + old(data[..k])
        invariant forall j :: k <= j < data.Length ==> data[j] == old(data[j])
        invariant outputs == old(outputs) + data[..k]
      {
        var y := ProcessSample(v, data[k]);
        data[k] := y;
        assert old(data[..k + 1]) == old(data[..k]) + [old(data[k])];
        assert data[..k + 1] == data[..k] + [y];
      }
      assert old(data[..data.Length]) == old(data[..]);
      assert data[..data.Length] == data[..];
    }
  }
}

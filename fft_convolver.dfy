/*
 * The two-stage convolver (src/ir/convolver/fft.rs): the first 256 taps of
 * the impulse response run as a time-domain FIR with no latency, and the
 * rest is split into 512-tap partitions convolved block by block in the
 * frequency domain (uniformly partitioned overlap-add over 1024-point
 * transforms). The transforms belong to an external library, so they are
 * a parameter here: each may fail, and a lawful one returns buffers of the
 * sizes the convolver allocates. The model states the ring and index
 * bookkeeping around them, and the head's output exactly.
 */
module FftConvolver {
  import opened Common
  import opened Fir

  const HEAD_LEN: nat := 256
  const BLOCK_SIZE: nat := 1024
  /** Half a block: the new input samples each transform adds. */
  const PARTITION_SIZE: nat := 512
  /** Bins of a real transform of a block: BLOCK_SIZE / 2 + 1. */
  const NUM_BINS: nat := 513

  datatype Complex = Complex(re: real, im: real)

  const ZERO: Complex := Complex(0.0, 0.0)

  function Add(a: Complex, b: Complex): Complex {
    Complex(a.re + b.re, a.im + b.im)
  }

  function Mul(a: Complex, b: Complex): Complex {
    Complex(a.re * b.re - a.im * b.im, a.re * b.im + a.im * b.re)
  }

  /** The forward and inverse real transforms of a block; None is the library's error. */
  datatype Fft = Fft(
    forward: seq<real> -> Option<seq<Complex>>,
    inverse: seq<Complex> -> Option<seq<real>>)

  /** A lawful transform fills the whole output buffer it was given. */
  ghost predicate FftLawful(f: Fft) {
    && (forall x :: f.forward(x).Some? ==> |f.forward(x).value| == NUM_BINS)
    && (forall s :: f.inverse(s).Some? ==> |f.inverse(s).value| == BLOCK_SIZE)
  }

  /** A spectrum of zeros, as every history slot is after a reset. */
  function ZeroSpectrum(): (s: seq<Complex>)
    ensures |s| == NUM_BINS && forall k :: 0 <= k < NUM_BINS ==> s[k] == ZERO
  {
    seq(NUM_BINS, _ => ZERO)
  }

  /** `n.div_ceil(d)`: the number of d-sized pieces needed to cover n. */
  function DivCeil(n: nat, d: nat): nat
    requires d > 0
  {
    (n + d - 1) / d
  }

  /** The tail needs exactly enough partitions to cover it, and not one more. */
  lemma DivCeilCovers(n: nat, d: nat)
    requires d > 0
    ensures DivCeil(n, d) * d >= n
    ensures n > 0 ==> (DivCeil(n, d) - 1) * d < n
    ensures n == 0 ==> DivCeil(n, d) == 0
  {
    var q := (n + d - 1) / d;
    var r := (n + d - 1) % d;
    assert n + d - 1 == q * d + r;
    assert 0 <= r < d;
    if n == 0 {
      assert (d - 1) / d == 0;
    }
  }

  /** The number of tail partitions set_ir makes for an IR of `len` samples. */
  function NumTailPartitions(len: nat): nat {
    if len > HEAD_LEN then DivCeil(len - HEAD_LEN, PARTITION_SIZE) else 0
  }

  /** The head: the first min(len, 256) taps, zero-padded to 256. */
  function HeadOf(ir: seq<real>): (h: seq<real>)
    ensures |h| == HEAD_LEN
    ensures forall i :: 0 <= i < HEAD_LEN ==> h[i] == if i < |ir| then ir[i] else 0.0
  {
    seq(HEAD_LEN, i requires 0 <= i < HEAD_LEN => if i < |ir| then ir[i] else 0.0)
  }

  /** Partition `p` of the tail in the time domain: its 512 samples (fewer at the end), zero-padded to a block. */
  function PartitionBlock(tail: seq<real>, p: nat): (b: seq<real>)
    ensures |b| == BLOCK_SIZE
  {
    seq(BLOCK_SIZE, i requires 0 <= i < BLOCK_SIZE =>
      if i < PARTITION_SIZE && p * PARTITION_SIZE + i < |tail| then tail[p * PARTITION_SIZE + i] else 0.0)
  }

  /**
   * No tail sample is lost or duplicated: sample i lands in partition
   * i / 512 at offset i % 512, and that partition is one set_ir makes.
   */
  lemma PartitionsCoverTail(tail: seq<real>, i: nat)
    requires i < |tail|
    ensures i / PARTITION_SIZE < DivCeil(|tail|, PARTITION_SIZE)
    ensures PartitionBlock(tail, i / PARTITION_SIZE)[i % PARTITION_SIZE] == tail[i]
  {
    var p := i / PARTITION_SIZE;
    var o := i % PARTITION_SIZE;
    assert i == p * PARTITION_SIZE + o;
    DivCeilCovers(|tail|, PARTITION_SIZE);
  }

  /** The block a transform reads: the input ring in time order, starting at `base`. */
  function TimeBlock(buf: seq<real>, base: nat): (b: seq<real>)
    requires |buf| == BLOCK_SIZE && base < BLOCK_SIZE
    ensures |b| == BLOCK_SIZE
  {
    seq(BLOCK_SIZE, i requires 0 <= i < BLOCK_SIZE => buf[(base + i) % BLOCK_SIZE])
  }

  /** The history slot holding the spectrum `j` blocks before the newest, when `head` is the next slot to write. */
  function HistIdx(head: nat, len: nat, j: nat): (i: nat)
    requires head < len && j < len
    ensures i < len
  {
    (head + len - 1 - j) % len
  }

  /** Right after a spectrum is stored, partition 0 is paired with it and partition j with the one j blocks older. */
  lemma NewestFirst(stored: nat, len: nat, j: nat)
    requires stored < len && j < len
    ensures HistIdx((stored + 1) % len, len, j) == if j <= stored then stored - j else stored + len - j
  {
    if stored + 1 == len {
      assert (stored + 1) % len == 0;
      assert (len - 1 - j) % len == len - 1 - j;
    } else {
      assert (stored + 1) % len == stored + 1;
      ModSmall(stored + len - j, len);
    }
  }

  /** Spectra of the right size, one per partition. */
  predicate Spectra(s: seq<seq<Complex>>, n: nat) {
    |s| == n && forall i :: 0 <= i < n ==> |s[i]| == NUM_BINS
  }

  /** Bin `k` of the sum over the first `n` partitions of history spectrum times partition spectrum. */
  function BinSum(hist: seq<seq<Complex>>, head: nat, parts: seq<seq<Complex>>, n: nat, k: nat): Complex
    requires Spectra(hist, |parts|) && Spectra(parts, |parts|)
    requires head < |parts| && n <= |parts| && k < NUM_BINS
  {
    if n == 0 then ZERO
    else Add(BinSum(hist, head, parts, n - 1, k), Mul(hist[HistIdx(head, |parts|, n - 1)][k], parts[n - 1][k]))
  }

  /** The accumulated spectrum, with the DC and Nyquist bins made real. */
  function Accumulated(hist: seq<seq<Complex>>, head: nat, parts: seq<seq<Complex>>): (a: seq<Complex>)
    requires Spectra(hist, |parts|) && Spectra(parts, |parts|) && head < |parts|
    ensures |a| == NUM_BINS
  {
    var s := seq(NUM_BINS, k requires 0 <= k < NUM_BINS => BinSum(hist, head, parts, |parts|, k));
    s[0 := s[0].(im := 0.0)][NUM_BINS - 1 := s[NUM_BINS - 1].(im := 0.0)]
  }

  /** The overlap-add: sample i of the inverse transform, scaled by 1/1024, added at base + i around the ring. */
  function OverlapAdd(ola: seq<real>, t: seq<real>, base: nat): (r: seq<real>)
    requires |ola| == BLOCK_SIZE && |t| == BLOCK_SIZE && base < BLOCK_SIZE
    ensures |r| == BLOCK_SIZE
  {
    seq(BLOCK_SIZE, p requires 0 <= p < BLOCK_SIZE =>
      ola[p] + t[if p >= base then p - base else p + BLOCK_SIZE - base] * (1.0 / BLOCK_SIZE as real))
  }

  /** The ring position `base + i` wrapped once, and its inverse. */
  lemma WrapBack(base: nat, i: nat)
    requires base < BLOCK_SIZE && i < BLOCK_SIZE
    ensures var p := (base + i) % BLOCK_SIZE;
      p < BLOCK_SIZE && (if p >= base then p - base else p + BLOCK_SIZE - base) == i
  {
    ModSmall(base + i, BLOCK_SIZE);
  }

  /**
   * What processing one tail partition does to the history and the output
   * ring, given the input block it transforms: a failed forward transform
   * changes nothing; otherwise the spectrum is stored at the history head,
   * which moves on, and the inverse of the accumulated spectrum is
   * overlap-added 256 samples past `write0` unless that transform fails.
   */
  ghost predicate PartitionRun(fft: Fft, block: seq<real>, parts: seq<seq<Complex>>,
                               hist0: seq<seq<Complex>>, head0: nat, ola0: seq<real>, write0: nat,
                               hist: seq<seq<Complex>>, head: nat, ola: seq<real>)
    requires FftLawful(fft) && Spectra(parts, |parts|) && Spectra(hist0, |parts|) && head0 < |parts|
    requires |ola0| == BLOCK_SIZE && write0 < BLOCK_SIZE
  {
    match fft.forward(block)
    case None => hist == hist0 && head == head0 && ola == ola0
    case Some(spectrum) =>
      && hist == hist0[head0 := spectrum]
      && head == (head0 + 1) % |parts|
      && var acc := Accumulated(hist, head, parts);
         match fft.inverse(acc)
         case None => ola == ola0
         case Some(t) => ola == OverlapAdd(ola0, t, (write0 + HEAD_LEN % BLOCK_SIZE) % BLOCK_SIZE)
  }

  class TwoStageConvolver {
    var headCoeffs: seq<real>
    const headRing: array<real>
    var headWritePos: nat
    /** The inputs the head has seen since the last reset. */
    ghost var headHistory: seq<real>
    /** Every sample process_sample has returned, in order. */
    ghost var outputs: seq<real>

    var tailPartitions: seq<seq<Complex>>
    var numTailPartitions: nat

    const inputBuffer: array<real>
    var inputBase: nat
    var inputPos: nat

    var history: seq<seq<Complex>>
    var historyHead: nat

    const olaBuffer: array<real>
    var olaWrite: nat
    var olaRead: nat

    const timeScratch: array<real>
    var freqScratch: seq<Complex>
    var freqAccumulator: seq<Complex>

    /** The buffers' sizes, which never change, and the spectra's. */
    ghost predicate Shaped()
      reads this
    {
      && headRing.Length == HEAD_LEN && inputBuffer.Length == BLOCK_SIZE
      && olaBuffer.Length == BLOCK_SIZE && timeScratch.Length == BLOCK_SIZE
      && headRing != inputBuffer && headRing != olaBuffer && headRing != timeScratch
      && inputBuffer != olaBuffer && inputBuffer != timeScratch && olaBuffer != timeScratch
      && |headCoeffs| == HEAD_LEN && headWritePos < HEAD_LEN
      && Spectra(tailPartitions, numTailPartitions) && Spectra(history, numTailPartitions)
      && (numTailPartitions > 0 ==> historyHead < numTailPartitions)
      && |freqScratch| == NUM_BINS && |freqAccumulator| == NUM_BINS
    }

    /**
     * The tail's positions stay aligned: input_base and ola_write both sit
     * on a partition boundary and move together, and ola_read runs
     * input_pos samples ahead of them.
     */
    ghost predicate Aligned()
      reads this
    {
      && (inputBase == 0 || inputBase == PARTITION_SIZE)
      && olaWrite == inputBase
      && inputPos < PARTITION_SIZE
      && olaRead == olaWrite + inputPos
    }

    /** The head ring holds the recent inputs, as the FIR convolver's ring does. */
    ghost predicate HeadRingHolds()
      reads this, headRing
      requires headRing.Length == HEAD_LEN && headWritePos < HEAD_LEN
    {
      forall j :: 0 <= j < HEAD_LEN ==> headRing[Behind(headWritePos, j + 1, HEAD_LEN)] == Ago(headHistory, j)
    }

    ghost predicate Valid()
      reads this, headRing
    {
      Shaped() && Aligned() && HeadRingHolds()
    }

    /** new: a silent head, no tail, zeroed buffers and every index at 0. */
    constructor ()
      ensures Valid() && fresh(headRing) && fresh(inputBuffer) && fresh(olaBuffer) && fresh(timeScratch)
      ensures headCoeffs == HeadOf([]) && numTailPartitions == 0 && tailPartitions == [] && history == []
      ensures headWritePos == 0 && inputBase == 0 && inputPos == 0 && olaWrite == 0 && olaRead == 0
      ensures headHistory == [] && outputs == []
    {
      headCoeffs := HeadOf([]);
      headRing := new real[HEAD_LEN](_ => 0.0);
      headWritePos := 0;
      headHistory := [];
      outputs := [];
      tailPartitions := [];
      numTailPartitions := 0;
      inputBuffer := new real[BLOCK_SIZE](_ => 0.0);
      inputBase := 0;
      inputPos := 0;
      history := [];
      historyHead := 0;
      olaBuffer := new real[BLOCK_SIZE](_ => 0.0);
      olaWrite := 0;
      olaRead := 0;
      timeScratch := new real[BLOCK_SIZE](_ => 0.0);
      freqScratch := ZeroSpectrum();
      freqAccumulator := ZeroSpectrum();
    }

    /**
     * set_ir: an empty IR silences the head and drops the tail, without a
     * reset. Otherwise the head takes the first 256 taps, a longer IR's tail
     * is partitioned and transformed, and on success the state is reset.
     * A failed transform stops partitioning with an error and no reset.
     */
    method SetIr(fft: Fft, ir: seq<real>) returns (r: Result<Unit>)
      requires Valid() && FftLawful(fft)
      modifies this, headRing, inputBuffer, olaBuffer, timeScratch
      ensures r.Err? ==> |ir| > HEAD_LEN && r.error == "FFT failed during IR partitioning"
      ensures r.Err? ==> exists p :: 0 <= p < NumTailPartitions(|ir|) && fft.forward(PartitionBlock(ir[HEAD_LEN..], p)).None?
      ensures r.Ok? ==> Valid()
      ensures r.Ok? ==> headCoeffs == HeadOf(ir) && numTailPartitions == NumTailPartitions(|ir|)
      ensures r.Ok? ==> forall p :: 0 <= p < numTailPartitions ==>
        fft.forward(PartitionBlock(ir[HEAD_LEN..], p)) == Some(tailPartitions[p])
      ensures |ir| == 0 ==>
        && r.Ok? && headWritePos == old(headWritePos) && inputPos == old(inputPos)
        && olaRead == old(olaRead) && headHistory == old(headHistory)
      ensures r.Ok? && |ir| > 0 ==> IsReset()
      ensures outputs == old(outputs)
    {
      if |ir| == 0 {
        headCoeffs := HeadOf([]);
        tailPartitions := [];
        numTailPartitions := 0;
        history := [];
        return Ok(Unit);
      }
      headCoeffs := HeadOf(ir);
      if |ir| > HEAD_LEN {
        r := PartitionTail(fft, ir[HEAD_LEN..]);
        if r.Err? {
          return;
        }
      } else {
        tailPartitions := [];
        numTailPartitions := 0;
        history := [];
      }
      Reset();
      r := Ok(Unit);
    }

    /**
     * partition_tail: ceil(len / 512) partitions, each transformed in
     * turn; the first failed transform ends it with an error. On success
     * the history holds one zero spectrum per partition.
     */
    method PartitionTail(fft: Fft, tail: seq<real>) returns (r: Result<Unit>)
      requires FftLawful(fft)
      modifies this`numTailPartitions, this`tailPartitions, this`history, this`historyHead
      ensures numTailPartitions == DivCeil(|tail|, PARTITION_SIZE)
      ensures r.Ok? <==> forall p :: 0 <= p < numTailPartitions ==> fft.forward(PartitionBlock(tail, p)).Some?
      ensures r.Ok? ==> Spectra(tailPartitions, numTailPartitions)
      ensures r.Ok? ==> forall p :: 0 <= p < numTailPartitions ==> fft.forward(PartitionBlock(tail, p)) == Some(tailPartitions[p])
      ensures r.Ok? ==> history == seq(numTailPartitions, _ => ZeroSpectrum()) && historyHead == 0
      ensures r.Err? ==> r.error == "FFT failed during IR partitioning"
    {
      numTailPartitions := DivCeil(|tail|, PARTITION_SIZE);
      var parts: seq<seq<Complex>> := [];
      tailPartitions := parts;
      var p := 0;
      while p < numTailPartitions
        invariant 0 <= p <= numTailPartitions && |parts| == p
        invariant forall q :: 0 <= q < p ==> fft.forward(PartitionBlock(tail, q)) == Some(parts[q])
        invariant tailPartitions == parts
        invariant numTailPartitions == DivCeil(|tail|, PARTITION_SIZE)
      {
        match fft.forward(PartitionBlock(tail, p)) {
          case None =>
            return Err("FFT failed during IR partitioning");
          case Some(spectrum) =>
            parts := parts + [spectrum];
            tailPartitions := parts;
        }
        p := p + 1;
      }
      history := seq(numTailPartitions, _ => ZeroSpectrum());
      historyHead := 0;
      r := Ok(Unit);
    }

    /** The state reset leaves: zeroed buffers and spectra, and every index at 0. */
    ghost predicate IsReset()
      reads this, headRing, inputBuffer, olaBuffer, timeScratch
    {
      && (forall i :: 0 <= i < headRing.Length ==> headRing[i] == 0.0)
      && (forall i :: 0 <= i < inputBuffer.Length ==> inputBuffer[i] == 0.0)
      && (forall i :: 0 <= i < olaBuffer.Length ==> olaBuffer[i] == 0.0)
      && (forall i :: 0 <= i < timeScratch.Length ==> timeScratch[i] == 0.0)
      && headWritePos == 0 && inputBase == 0 && inputPos == 0
      && olaWrite == 0 && olaRead == 0 && historyHead == 0
      && history == seq(|history|, _ => ZeroSpectrum())
      && freqScratch == ZeroSpectrum() && freqAccumulator == ZeroSpectrum()
      && headHistory == []
    }

    /** reset: every ring and scratch buffer zeroed, every index 0; the IR is kept. */
    method Reset()
      requires Shaped()
      modifies this`headWritePos, this`headHistory, this`inputBase, this`inputPos, this`olaWrite, this`olaRead,
        this`historyHead, this`history, this`freqScratch, this`freqAccumulator,
        headRing, inputBuffer, olaBuffer, timeScratch
      ensures Valid() && IsReset() && |history| == |old(history)|
    {
      Silence(headRing);
      Silence(inputBuffer);
      Silence(olaBuffer);
      Silence(timeScratch);
      headWritePos, inputBase, inputPos, olaWrite, olaRead, historyHead := 0, 0, 0, 0, 0, 0;
      history, freqScratch, freqAccumulator := seq(|history|, _ => ZeroSpectrum()), ZeroSpectrum(), ZeroSpectrum();
      headHistory := [];
    }

    /**
     * The head half of process_sample: the input joins the head ring and
     * the 256 head taps are summed against it, newest first.
     */
    method ProcessHead(input: real) returns (headOut: real)
      requires Shaped() && HeadRingHolds()
      modifies this`headWritePos, this`headHistory, headRing
      ensures Shaped() && HeadRingHolds()
      ensures headHistory == old(headHistory) + [input]
      ensures headOut == FirOutput(headCoeffs, headHistory)
      ensures headWritePos == (old(headWritePos) + 1) % HEAD_LEN
    {
      var w := headWritePos;
      ghost var h0 := headHistory;
      ghost var ring0 := headRing[..];
      RingStore(ring0, w, h0, input);
      headRing[w] := input;
      headHistory := h0 + [input];
      ghost var ring1 := headRing[..];
      assert ring1 == ring0[w := input];
      headOut := TapSum(headCoeffs, headRing, w, headHistory);
      RingAdvance(ring1, w, headHistory);
      headWritePos := (w + 1) % HEAD_LEN;
    }

    /**
     * process_sample: the head's output plus, when there is a tail, the
     * overlap-add sample at ola_read (cleared as it is read). The input is
     * stored in the newer half of the input block; once a partition's worth
     * has arrived the tail partition is processed and input_base moves on by
     * a partition.
     */
    method ProcessSample(fft: Fft, input: real) returns (output: real)
      requires Valid() && FftLawful(fft)
      modifies this, headRing, inputBuffer, olaBuffer, timeScratch
      ensures Valid()
      ensures headCoeffs == old(headCoeffs) && tailPartitions == old(tailPartitions)
      ensures numTailPartitions == old(numTailPartitions)
      ensures headHistory == old(headHistory) + [input] && outputs == old(outputs) + [output]
      ensures output == FirOutput(headCoeffs, headHistory) + (if numTailPartitions > 0 then old(olaBuffer[olaRead]) else 0.0)
      ensures numTailPartitions == 0 ==>
        inputBase == old(inputBase) && inputPos == old(inputPos) && olaRead == old(olaRead)
        && inputBuffer[..] == old(inputBuffer[..]) && olaBuffer[..] == old(olaBuffer[..])
      ensures numTailPartitions > 0 ==>
        && inputBuffer[..] == old(inputBuffer[..])[(old(inputBase) + PARTITION_SIZE + old(inputPos)) % BLOCK_SIZE := input]
        && olaRead == (old(olaRead) + 1) % BLOCK_SIZE
      ensures numTailPartitions > 0 && old(inputPos) + 1 < PARTITION_SIZE ==>
        olaBuffer[..] == old(olaBuffer[..])[old(olaRead) := 0.0]
        && history == old(history) && historyHead == old(historyHead)
      ensures numTailPartitions > 0 && old(inputPos) + 1 == PARTITION_SIZE ==>
        PartitionRun(fft, TimeBlock(inputBuffer[..], old(inputBase)), tailPartitions,
                     old(history), old(historyHead), old(olaBuffer[..])[old(olaRead) := 0.0], old(olaWrite),
                     history, historyHead, olaBuffer[..])
      ensures numTailPartitions > 0 && old(inputPos) + 1 < PARTITION_SIZE ==>
        inputPos == old(inputPos) + 1 && inputBase == old(inputBase) && olaWrite == old(olaWrite)
      ensures numTailPartitions > 0 && old(inputPos) + 1 == PARTITION_SIZE ==>
        inputPos == 0 && inputBase == (old(inputBase) + PARTITION_SIZE) % BLOCK_SIZE
        && olaWrite == (old(olaWrite) + PARTITION_SIZE) % BLOCK_SIZE
    {
      var headOut := ProcessHead(input);
      var tailOut := 0.0;
      if numTailPartitions > 0 {
        tailOut := ProcessTail(fft, input);
      }
      output := headOut + tailOut;
      outputs := outputs + [output];
    }

    /**
     * The tail half of process_sample, when there is a tail: store the
     * input, read and clear the overlap-add sample, and process a partition
     * once enough input has arrived.
     */
    method ProcessTail(fft: Fft, input: real) returns (tailOut: real)
      requires Shaped() && Aligned() && FftLawful(fft) && numTailPartitions > 0
      modifies this`inputPos, this`inputBase, this`olaRead,
        this`history, this`historyHead, this`freqScratch, this`freqAccumulator, this`olaWrite,
        inputBuffer, olaBuffer, timeScratch
      ensures Shaped() && Aligned()
      ensures tailOut == old(olaBuffer[olaRead])
      ensures inputBuffer[..] == old(inputBuffer[..])[(old(inputBase) + PARTITION_SIZE + old(inputPos)) % BLOCK_SIZE := input]
      ensures olaRead == (old(olaRead) + 1) % BLOCK_SIZE
      ensures old(inputPos) + 1 < PARTITION_SIZE ==>
        olaBuffer[..] == old(olaBuffer[..])[old(olaRead) := 0.0]
        && history == old(history) && historyHead == old(historyHead)
      ensures old(inputPos) + 1 == PARTITION_SIZE ==>
        PartitionRun(fft, TimeBlock(inputBuffer[..], old(inputBase)), tailPartitions,
                     old(history), old(historyHead), old(olaBuffer[..])[old(olaRead) := 0.0], old(olaWrite),
                     history, historyHead, olaBuffer[..])
      ensures old(inputPos) + 1 < PARTITION_SIZE ==>
        inputPos == old(inputPos) + 1 && inputBase == old(inputBase) && olaWrite == old(olaWrite)
      ensures old(inputPos) + 1 == PARTITION_SIZE ==>
        inputPos == 0 && inputBase == (old(inputBase) + PARTITION_SIZE) % BLOCK_SIZE
        && olaWrite == (old(olaWrite) + PARTITION_SIZE) % BLOCK_SIZE
    {
      var writeIdx := (inputBase + PARTITION_SIZE + inputPos) % BLOCK_SIZE;
      ghost var in0, ola0 := inputBuffer[..], olaBuffer[..];
      inputBuffer[writeIdx] := input;
      assert inputBuffer[..] == in0[writeIdx := input];
      tailOut := olaBuffer[olaRead];
      olaBuffer[olaRead] := 0.0;
      assert olaBuffer[..] == ola0[olaRead := 0.0];
      olaRead := (olaRead + 1) % BLOCK_SIZE;
      inputPos := inputPos + 1;
      if inputPos >= PARTITION_SIZE {
        ProcessTailPartition(fft);
        inputPos := 0;
        inputBase := (inputBase + PARTITION_SIZE) % BLOCK_SIZE;
      }
    }

    /** One iteration of process_block: the i-th sample through process_sample, the output written in its place. */
    method BlockStep(fft: Fft, samples: array<real>, i: nat)
      requires Valid() && FftLawful(fft) && i < samples.Length
      requires samples != headRing && samples != inputBuffer && samples != olaBuffer && samples != timeScratch
      modifies this, headRing, inputBuffer, olaBuffer, timeScratch, samples
      ensures Valid()
      ensures headCoeffs == old(headCoeffs) && tailPartitions == old(tailPartitions)
      ensures numTailPartitions == old(numTailPartitions)
      ensures headHistory == old(headHistory) + [old(samples[i])] && outputs == old(outputs) + [samples[i]]
      ensures samples[..] == old(samples[..])[i := samples[i]]
      ensures numTailPartitions == 0 ==> samples[i] == Respond(headCoeffs, old(headHistory), old(samples[i]))
    {
      var y := ProcessSample(fft, samples[i]);
      samples[i] := y;
    }

    /** process_block: process_sample on each sample in order, in place. */
    method ProcessBlock(fft: Fft, samples: array<real>)
      requires Valid() && FftLawful(fft)
      requires samples != headRing && samples != inputBuffer && samples != olaBuffer && samples != timeScratch
      modifies this, headRing, inputBuffer, olaBuffer, timeScratch, samples
      ensures Valid()
      ensures headCoeffs == old(headCoeffs) && tailPartitions == old(tailPartitions)
      ensures headHistory == old(headHistory) + old(samples[..]) && outputs == old(outputs) + samples[..]
      ensures numTailPartitions == 0 ==> samples[..] == RespondAll(headCoeffs, old(headHistory), old(samples[..]))
    {
      ghost var xs := samples[..];
      ghost var h0 := headHistory;
      var i := 0;
      while i < samples.Length
        invariant 0 <= i <= samples.Length
        invariant Valid() && headCoeffs == old(headCoeffs) && tailPartitions == old(tailPartitions)
        invariant numTailPartitions == old(numTailPartitions)
        invariant headHistory == h0 + xs[..i] && outputs == old(outputs) + samples[..i]
        invariant samples[i..] == xs[i..]
        invariant numTailPartitions == 0 ==>
          samples[..i] + RespondAll(headCoeffs, headHistory, xs[i..]) == RespondAll(headCoeffs, h0, xs)
      {
        assert xs[i..] == [xs[i]] + xs[i + 1..];
        assert xs[..i + 1] == xs[..i] + [xs[i]];
        ghost var before := samples[..];
        BlockStep(fft, samples, i);
        assert samples[..i + 1] == before[..i] + [samples[i]];
        assert samples[i + 1..] == before[i + 1..];
        i := i + 1;
      }
      assert xs[..i] == xs;
      assert samples[..i] == samples[..];
    }

    /**
     * process_tail_partition: transform the input block, store its spectrum
     * in the history, accumulate history times partitions, transform back
     * and overlap-add into the output ring 256 samples on (the head's
     * length). Whether or not a transform fails, ola_write moves on by a
     * partition, so the output ring stays aligned with the input.
     */
    method ProcessTailPartition(fft: Fft)
      requires Shaped() && FftLawful(fft) && numTailPartitions > 0
      requires inputBase < BLOCK_SIZE && olaWrite < BLOCK_SIZE
      modifies this`history, this`historyHead, this`freqScratch, this`freqAccumulator, this`olaWrite,
        timeScratch, olaBuffer
      ensures Shaped()
      ensures olaWrite == (old(olaWrite) + PARTITION_SIZE) % BLOCK_SIZE
      ensures PartitionRun(fft, TimeBlock(inputBuffer[..], inputBase), tailPartitions,
                           old(history), old(historyHead), old(olaBuffer[..]), old(olaWrite),
                           history, historyHead, olaBuffer[..])
    {
      LoadTimeBlock();
      var forward := fft.forward(timeScratch[..]);
      if forward.None? {
        olaWrite := (olaWrite + PARTITION_SIZE) % BLOCK_SIZE;
        return;
      }
      ConvolveSpectrum(fft, forward.value);
      olaWrite := (olaWrite + PARTITION_SIZE) % BLOCK_SIZE;
    }

    /** The copy of the input ring, in time order from input_base, into the transform's buffer. */
    method LoadTimeBlock()
      requires inputBuffer.Length == BLOCK_SIZE && timeScratch.Length == BLOCK_SIZE
      requires inputBuffer != timeScratch && inputBase < BLOCK_SIZE
      modifies timeScratch
      ensures timeScratch[..] == TimeBlock(inputBuffer[..], inputBase)
    {
      for i := 0 to BLOCK_SIZE
        invariant forall q :: 0 <= q < i ==> timeScratch[q] == inputBuffer[(inputBase + q) % BLOCK_SIZE]
      {
        timeScratch[i] := inputBuffer[(inputBase + i) % BLOCK_SIZE];
      }
      assert timeScratch[..] == TimeBlock(inputBuffer[..], inputBase);
    }

    /**
     * From a transformed input block on: store it in the history, sum
     * history times partitions, make DC and Nyquist real, transform back
     * and overlap-add 256 samples past ola_write. A failed inverse
     * transform adds nothing.
     */
    method ConvolveSpectrum(fft: Fft, spectrum: seq<Complex>)
      requires Shaped() && FftLawful(fft) && numTailPartitions > 0
      requires |spectrum| == NUM_BINS && olaWrite < BLOCK_SIZE
      modifies this`history, this`historyHead, this`freqScratch, this`freqAccumulator, timeScratch, olaBuffer
      ensures Shaped()
      ensures history == old(history)[old(historyHead) := spectrum]
      ensures historyHead == (old(historyHead) + 1) % numTailPartitions
      ensures var acc := Accumulated(history, historyHead, tailPartitions);
        match fft.inverse(acc)
        case None => olaBuffer[..] == old(olaBuffer[..])
        case Some(t) => olaBuffer[..] == OverlapAdd(old(olaBuffer[..]), t, (olaWrite + HEAD_LEN % BLOCK_SIZE) % BLOCK_SIZE)
    {
      ghost var ola0 := olaBuffer[..];
      freqScratch := spectrum;
      history := history[historyHead := freqScratch];
      historyHead := (historyHead + 1) % |history|;
      var acc := Accumulate(history, historyHead, tailPartitions);
      acc := acc[0 := acc[0].(im := 0.0)];
      acc := acc[NUM_BINS - 1 := acc[NUM_BINS - 1].(im := 0.0)];
      freqAccumulator := acc;
      assert freqAccumulator == Accumulated(history, historyHead, tailPartitions);
      var inverse := fft.inverse(freqAccumulator);
      if inverse.None? {
        assert olaBuffer[..] == ola0;
        return;
      }
      forall i | 0 <= i < BLOCK_SIZE {
        timeScratch[i] := inverse.value[i];
      }
      assert timeScratch[..] == inverse.value;
      assert olaBuffer[..] == ola0;
      var base := (olaWrite + HEAD_LEN % BLOCK_SIZE) % BLOCK_SIZE;
      AddInto(timeScratch, base);
      assert olaBuffer[..] == OverlapAdd(ola0, inverse.value, base);
    }

    /** The overlap-add loop: sample i of the block, scaled by 1/1024, added at base + i around the output ring. */
    method AddInto(t: array<real>, base: nat)
      requires olaBuffer.Length == BLOCK_SIZE && t.Length == BLOCK_SIZE && t != olaBuffer && base < BLOCK_SIZE
      modifies olaBuffer
      ensures olaBuffer[..] == OverlapAdd(old(olaBuffer[..]), t[..], base)
    {
      var scale := 1.0 / BLOCK_SIZE as real;
      ghost var ola0 := olaBuffer[..];
      for i := 0 to BLOCK_SIZE
        invariant forall p :: 0 <= p < BLOCK_SIZE ==>
          olaBuffer[p] == if (if p >= base then p - base else p + BLOCK_SIZE - base) < i
            then ola0[p] + t[if p >= base then p - base else p + BLOCK_SIZE - base] * scale
            else ola0[p]
      {
        var pos := (base + i) % BLOCK_SIZE;
        WrapBack(base, i);
        olaBuffer[pos] := olaBuffer[pos] + t[i] * scale;
      }
      assert olaBuffer[..] == OverlapAdd(ola0, t[..], base);
    }
  }

  /** `fill(0.0)` on a buffer. */
  method Silence(a: array<real>)
    modifies a
    ensures forall i :: 0 <= i < a.Length ==> a[i] == 0.0
  {
    forall i | 0 <= i < a.Length {
      a[i] := 0.0;
    }
  }

  /**
   * The accumulation loops: for each partition j, every bin adds the
   * spectrum j blocks old times partition j's spectrum.
   */
  method Accumulate(hist: seq<seq<Complex>>, head: nat, parts: seq<seq<Complex>>) returns (acc: seq<Complex>)
    requires Spectra(hist, |parts|) && Spectra(parts, |parts|) && head < |parts|
    ensures |acc| == NUM_BINS
    ensures forall k :: 0 <= k < NUM_BINS ==> acc[k] == BinSum(hist, head, parts, |parts|, k)
  {
    acc := ZeroSpectrum();
    var n := |parts|;
    for j := 0 to n
      invariant |acc| == NUM_BINS
      invariant forall k :: 0 <= k < NUM_BINS ==> acc[k] == BinSum(hist, head, parts, j, k)
    {
      var h := HistIdx(head, n, j);
      for k := 0 to NUM_BINS
        invariant |acc| == NUM_BINS
        invariant forall q :: 0 <= q < k ==> acc[q] == BinSum(hist, head, parts, j + 1, q)
        invariant forall q :: k <= q < NUM_BINS ==> acc[q] == BinSum(hist, head, parts, j, q)
      {
        acc := acc[k := Add(acc[k], Mul(hist[h][k], parts[j][k]))];
      }
    }
  }
}

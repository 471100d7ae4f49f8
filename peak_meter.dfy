/*
 * The output peak meter (src/audio/peak_meter.rs): the loudest sample of
 * each block, held for two seconds unless a louder block arrives, published
 * with its level in dB and a clipping flag through a cell the GUI's handle
 * reads.
 */
module PeakMeter {
  import opened Common
  import opened MathLib

  const CLIP_THRESHOLD: real := 0.95
  /** Below this linear peak the dB reading is the floor value. */
  const SILENCE_FLOOR: real := 0.0000000001
  const FLOOR_DB: real := -100.0

  datatype PeakMeterInfo = PeakMeterInfo(peakDb: real, peakLinear: real, isClipping: bool)

  /** `PeakMeterInfo::default()`. */
  const DEFAULT_INFO: PeakMeterInfo := PeakMeterInfo(0.0, 0.0, false)

  /** `samples.iter().map(abs).fold(0.0, max)`. */
  function BlockPeak(samples: seq<real>): (r: real)
    ensures r >= 0.0
    ensures forall i :: 0 <= i < |samples| ==> Abs(samples[i]) <= r
  {
    if |samples| == 0 then 0.0 else Max(BlockPeak(samples[..|samples| - 1]), Abs(samples[|samples| - 1]))
  }

  /** The block peak is 0 for an empty block and otherwise the magnitude of one of its samples. */
  lemma {:induction false} BlockPeakAttained(samples: seq<real>)
    ensures |samples| == 0 ==> BlockPeak(samples) == 0.0
    ensures |samples| > 0 ==> exists i :: 0 <= i < |samples| && BlockPeak(samples) == Abs(samples[i])
  {
    if |samples| > 0 {
      var last := |samples| - 1;
      var init := samples[..last];
      if BlockPeak(samples) != Abs(samples[last]) {
        BlockPeakAttained(init);
        var i :| 0 <= i < |init| && BlockPeak(init) == Abs(init[i]);
        assert init[i] == samples[i];
      }
    }
  }

  /** The held peak and the samples counted since it, after one block. */
  function Held(peak: real, since: nat, hold: nat, samples: seq<real>): (nat, real)
  {
    var block := BlockPeak(samples);
    if block > peak then (0, block)
    else if since + |samples| > hold then (0, block)
    else (since + |samples|, peak)
  }

  /**
   * After a block the held peak covers every sample of that block, is
   * either the old peak or the block's, and the count never exceeds the
   * hold time.
   */
  lemma HeldCoversBlock(peak: real, since: nat, hold: nat, samples: seq<real>)
    requires since <= hold
    ensures var (s, p) := Held(peak, since, hold, samples);
      && (forall i :: 0 <= i < |samples| ==> Abs(samples[i]) <= p)
      && (p == peak || p == BlockPeak(samples))
      && s <= hold
  {
  }

  /** A block no louder than the held peak keeps it until more than `hold` samples have passed. */
  lemma HeldKeepsPeak(peak: real, since: nat, hold: nat, samples: seq<real>)
    requires BlockPeak(samples) <= peak
    ensures Held(peak, since, hold, samples).1 == peak <==> (since + |samples| <= hold || BlockPeak(samples) == peak)
  {
  }

  /** `20·log10(peak)`, or -100 dB at or below 1e-10. */
  function PeakDb(m: MathLib, peak: real): real {
    if peak > SILENCE_FLOOR then 20.0 * m.log10(peak) else FLOOR_DB
  }

  /** What `process` publishes for a held peak. */
  function InfoFor(m: MathLib, peak: real): (info: PeakMeterInfo)
    ensures info.peakLinear == peak
    ensures info.isClipping <==> peak >= CLIP_THRESHOLD
    ensures peak <= SILENCE_FLOOR ==> info.peakDb == FLOOR_DB
  {
    PeakMeterInfo(PeakDb(m, peak), peak, peak >= CLIP_THRESHOLD)
  }

  /** A decade of level is 20 dB: the reading of 10^(x/20) is x dB. */
  lemma PeakDbOfPower(m: MathLib, x: real)
    requires Lawful(m) && m.pow(10.0, x / 20.0) > SILENCE_FLOOR
    ensures PeakDb(m, m.pow(10.0, x / 20.0)) == x
  {
  }

  /** The `ArcSwap` cell shared by the meter and its handle. */
  class InfoCell {
    var info: PeakMeterInfo

    constructor ()
      ensures info == DEFAULT_INFO
    {
      info := DEFAULT_INFO;
    }
  }

  /** `PeakMeterHandle`: the GUI's read side. */
  class PeakMeterHandle {
    const cell: InfoCell

    constructor (cell: InfoCell)
      ensures this.cell == cell
    {
      this.cell := cell;
    }

    /** `get_info`: whatever the meter last published. */
    method GetInfo() returns (info: PeakMeterInfo)
      ensures info == cell.info
    {
      info := cell.info;
    }
  }

  class PeakMeter {
    var currentPeak: real
    var samplesSincePeak: nat
    const peakHoldSamples: nat
    const cell: InfoCell

    /** The peak is never negative and the count never passes the hold time. */
    ghost predicate Valid()
      reads this
    {
      currentPeak >= 0.0 && samplesSincePeak <= peakHoldSamples
    }

    /** `PeakMeter::new` without the handle: no peak, a two-second hold. */
    constructor (sampleRate: nat, cell: InfoCell)
      ensures Valid() && this.cell == cell
      ensures currentPeak == 0.0 && samplesSincePeak == 0 && peakHoldSamples == sampleRate * 2
    {
      currentPeak := 0.0;
      samplesSincePeak := 0;
      peakHoldSamples := sampleRate * 2;
      this.cell := cell;
    }

    /** `process`: update the held peak from the block and publish it. */
    method Process(m: MathLib, samples: seq<real>)
      requires Valid()
      modifies this`currentPeak, this`samplesSincePeak, cell
      ensures Valid()
      ensures (samplesSincePeak, currentPeak) == Held(old(currentPeak), old(samplesSincePeak), peakHoldSamples, samples)
      ensures cell.info == InfoFor(m, currentPeak)
    {
      var blockPeak := BlockPeak(samples);
      if blockPeak > currentPeak {
        currentPeak := blockPeak;
        samplesSincePeak := 0;
      } else {
        samplesSincePeak := samplesSincePeak + |samples|;
        if samplesSincePeak > peakHoldSamples {
          currentPeak := blockPeak;
          samplesSincePeak := 0;
        }
      }
      var peakDb := if currentPeak > SILENCE_FLOOR then 20.0 * m.log10(currentPeak) else FLOOR_DB;
      var isClipping := currentPeak >= CLIP_THRESHOLD;
      cell.info := PeakMeterInfo(peakDb, currentPeak, isClipping);
    }

    /** `reset`: no peak, no count, the default reading. */
    method Reset()
      modifies this`currentPeak, this`samplesSincePeak, cell
      ensures Valid() && currentPeak == 0.0 && samplesSincePeak == 0 && cell.info == DEFAULT_INFO
    {
      currentPeak := 0.0;
      samplesSincePeak := 0;
      cell.info := DEFAULT_INFO;
    }
  }

  /** `PeakMeter::new`: the meter and a handle on the same cell. */
  method NewPeakMeter(sampleRate: nat) returns (meter: PeakMeter, handle: PeakMeterHandle)
    ensures fresh(meter) && fresh(handle) && fresh(meter.cell)
    ensures meter.Valid() && meter.currentPeak == 0.0 && meter.peakHoldSamples == sampleRate * 2
    ensures handle.cell == meter.cell && meter.cell.info == DEFAULT_INFO
  {
    var cell := new InfoCell();
    meter := new PeakMeter(sampleRate, cell);
    handle := new PeakMeterHandle(cell);
  }
}

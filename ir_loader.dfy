/*
 * The impulse-response loader (src/ir/loader.rs): the sorted list of IR files
 * found under the IR directory, lookup by name, and the sample pipeline of
 * `load_ir` — integer-to-float scaling, mixdown to mono, linear resampling
 * to the engine's rate and peak normalisation to 0.9.
 *
 * The file system and the WAV decoder are parameters: a directory scan is a
 * `DirScan` value and reading a WAV file is a function from path to
 * `Result<Wav>`. Floats are modelled as reals.
 */
module Loader {
  import opened Common
  import opened Sorting
  import StageCommon

  /** A sample rate: hound's `u32`, never zero in a WAV header the loader accepts. */
  type Rate = r: nat | 1 <= r <= 0xFFFF_FFFF witness 48000

  /** Bits per integer sample, as a WAV header gives them. */
  type Bits = b: nat | 1 <= b <= 32 witness 16

  datatype SampleData = Floats(xs: seq<real>) | Ints(vs: seq<int>, bits: Bits)

  /** What the WAV decoder yields: the interleaved samples and the header fields used. */
  datatype Wav = Wav(channels: nat, sampleRate: Rate, data: SampleData)

  /** Reading one file: the open and read errors of the decoder come back as `Err`. */
  type WavReader = string -> Result<Wav>

  /** A recursive walk of the IR directory: relative name with `/` separators, and full path. */
  type IrEntry = (string, string)

  /** The outcome of walking the IR directory. */
  datatype DirScan =
    | Absent(created: bool)                                 // directory missing; creating it succeeded or not
    | Listed(entries: seq<IrEntry>)                         // every `.wav` file, in walk order
    | ReadFailed(partial: seq<IrEntry>, message: string)    // a `read_dir` failed after `partial` was pushed

  // ---------------------------------------------------------------------
  // Integer samples

  function Pow2(n: nat): (r: nat)
    ensures r >= 1
  {
    if n == 0 then 1 else 2 * Pow2(n - 1)
  }

  /** Two's-complement wrap of an integer into `i32`. */
  function WrapI32(x: int): (r: int)
    ensures -0x8000_0000 <= r < 0x8000_0000
    ensures -0x8000_0000 <= x < 0x8000_0000 ==> r == x
  {
    (x + 0x8000_0000) % 0x1_0000_0000 - 0x8000_0000
  }

  /**
   * The divisor as the loader computes it: the literal `1` is an `i32`, so
   * shifting it left by `bits - 1` wraps for 32-bit samples.
   */
  function IntScaleAsWritten(bits: Bits): int {
    WrapI32(Pow2(bits - 1))
  }

  /** The full-scale value of a signed `bits`-bit sample, 2^(bits-1). */
  function IntScale(bits: Bits): (r: nat)
    ensures r >= 1
  {
    Pow2(bits - 1)
  }

  /** For 32-bit samples the written divisor is negative: every sample changes sign. */
  lemma IntScaleAsWrittenFlips32(v: int)
    requires 0 < v < 0x8000_0000
    ensures IntScaleAsWritten(32) == -0x8000_0000
    ensures IntScale(32) == 0x8000_0000
    ensures v as real / IntScaleAsWritten(32) as real < 0.0
  {
    Pow2Of31();
    assert WrapI32(0x8000_0000) == -0x8000_0000;
    var x := v as real;
    assert x / -2147483648.0 == -(x / 2147483648.0);
  }

  lemma Pow2Of31()
    ensures Pow2(31) == 0x8000_0000
  {
    assert Pow2(8) == 256;
    assert Pow2(16) == 65536;
    assert Pow2(24) == 0x100_0000;
  }

  /** The intended scaling maps the full signed range of `bits` bits into [-1, 1) and keeps the sign. */
  lemma IntScaleKeepsRange(v: int, bits: Bits)
    requires -(IntScale(bits) as int) <= v < IntScale(bits)
    ensures -1.0 <= v as real / IntScale(bits) as real < 1.0
    ensures (v > 0 ==> v as real / IntScale(bits) as real > 0.0) && (v < 0 ==> v as real / IntScale(bits) as real < 0.0)
  {
    QuotientInUnit(v as real, IntScale(bits) as real);
  }

  lemma QuotientInUnit(x: real, m: real)
    requires m > 0.0 && -m <= x < m
    ensures -1.0 <= x / m < 1.0
    ensures (x > 0.0 ==> x / m > 0.0) && (x < 0.0 ==> x / m < 0.0)
  {
    var q := x / m;
    assert q * m == x;
    if q < -1.0 {
      MulMono(q, -1.0, m);
    }
    if q >= 1.0 {
      MulMono(1.0, q, m);
    }
  }

  /** Samples as floats: float files as they are, integer files divided by full scale. */
  function ToFloats(d: SampleData): (r: seq<real>)
    ensures |r| == if d.Floats? then |d.xs| else |d.vs|
  {
    match d
    case Floats(xs) => xs
    case Ints(vs, bits) => seq(|vs|, i requires 0 <= i < |vs| => vs[i] as real / IntScale(bits) as real)
  }

  // ---------------------------------------------------------------------
  // Mixdown

  function Sum(xs: seq<real>): real {
    if |xs| == 0 then 0.0 else Sum(xs[..|xs| - 1]) + xs[|xs| - 1]
  }

  /** Each chunk of `channels` samples, the last one possibly short, summed and divided by `channels`. */
  function Frames(xs: seq<real>, channels: nat): (r: seq<real>)
    requires channels >= 1
    ensures |r| == FrameCount(|xs|, channels)
    decreases |xs|
  {
    if |xs| == 0 then []
    else if |xs| <= channels then [Sum(xs) / channels as real]
    else [Sum(xs[..channels]) / channels as real] + Frames(xs[channels..], channels)
  }

  /** Number of chunks of `channels` samples, counting a short last one. */
  function FrameCount(n: nat, channels: nat): nat
    requires channels >= 1
  {
    if n == 0 then 0 else if n <= channels then 1 else 1 + FrameCount(n - channels, channels)
  }

  /** The chunk count is ⌈n / channels⌉: enough chunks to cover every sample, and no more. */
  lemma {:induction false} FrameCountIsCeiling(n: nat, channels: nat)
    requires channels >= 1
    ensures FrameCount(n, channels) * channels >= n
    ensures n > 0 ==> (FrameCount(n, channels) - 1) * channels < n
  {
    if n > channels {
      FrameCountIsCeiling(n - channels, channels);
      var f := FrameCount(n - channels, channels);
      assert FrameCount(n, channels) * channels == f * channels + channels;
    }
  }

  /** A file with more than one channel is averaged down to one. */
  function Mixdown(xs: seq<real>, channels: nat): (r: seq<real>) {
    if channels > 1 then Frames(xs, channels) else xs
  }

  /** Every sample repeated on `channels` channels. */
  function Spread(xs: seq<real>, channels: nat): (r: seq<real>)
    ensures |r| == |xs| * channels
  {
    if |xs| == 0 then [] else Repeat(xs[0], channels) + Spread(xs[1..], channels)
  }

  function Repeat(x: real, n: nat): (r: seq<real>)
    ensures |r| == n && forall i :: 0 <= i < n ==> r[i] == x
  {
    if n == 0 then [] else Repeat(x, n - 1) + [x]
  }

  lemma {:induction false} SumRepeat(x: real, n: nat)
    ensures Sum(Repeat(x, n)) == n as real * x
  {
    if n > 0 {
      SumRepeat(x, n - 1);
      assert Repeat(x, n)[..n - 1] == Repeat(x, n - 1);
    }
  }

  lemma {:induction false} SpreadOnce(xs: seq<real>)
    ensures Spread(xs, 1) == xs
  {
    if |xs| > 0 {
      SpreadOnce(xs[1..]);
      assert Repeat(xs[0], 1) == [xs[0]];
      assert xs == [xs[0]] + xs[1..];
    }
  }

  /** A full first chunk averages to one sample ahead of the rest. */
  lemma FramesHead(head: seq<real>, rest: seq<real>, channels: nat)
    requires channels >= 1 && |head| == channels
    ensures Frames(head + rest, channels) == [Sum(head) / channels as real] + Frames(rest, channels)
  {
    var s := head + rest;
    if |rest| == 0 {
      assert s == head;
    } else {
      assert s[..channels] == head;
      assert s[channels..] == rest;
    }
  }

  /** A total of n times x, divided by n, gives x. */
  lemma MeanOf(total: real, x: real, n: nat)
    requires n >= 1 && total == n as real * x
    ensures total / n as real == x
  {
  }

  /** n copies of x average to x. */
  lemma MeanOfRepeat(x: real, n: nat)
    requires n >= 1
    ensures Sum(Repeat(x, n)) / n as real == x
  {
    SumRepeat(x, n);
    MeanOf(Sum(Repeat(x, n)), x, n);
  }

  /** One more sample in front of the spread signal gives one more chunk in front of the averages. */
  lemma FramesOfSpreadStep(xs: seq<real>, channels: nat)
    requires channels >= 1 && |xs| > 0
    requires Frames(Spread(xs[1..], channels), channels) == xs[1..]
    ensures Frames(Spread(xs, channels), channels) == xs
  {
    var head := Repeat(xs[0], channels);
    var rest := Spread(xs[1..], channels);
    assert Spread(xs, channels) == head + rest;
    FramesHead(head, rest, channels);
    MeanOfRepeat(xs[0], channels);
    var mean := Sum(head) / channels as real;
    assert Frames(Spread(xs, channels), channels) == [mean] + xs[1..];
    assert xs == [xs[0]] + xs[1..];
  }

  /** Averaging the chunks of a spread signal gives the signal back. */
  lemma {:induction false} FramesOfSpread(xs: seq<real>, channels: nat)
    requires channels >= 1
    ensures Frames(Spread(xs, channels), channels) == xs
  {
    if |xs| > 0 {
      FramesOfSpread(xs[1..], channels);
      FramesOfSpreadStep(xs, channels);
    }
  }

  /** Mixing down a signal copied onto every channel gives that signal back. */
  lemma MixdownOfSpread(xs: seq<real>, channels: nat)
    requires channels >= 1
    ensures Mixdown(Spread(xs, channels), channels) == xs
  {
    if channels == 1 {
      SpreadOnce(xs);
    } else {
      FramesOfSpread(xs, channels);
    }
  }

  // ---------------------------------------------------------------------
  // Linear resampling

  /** `from_rate as f64 / to_rate as f64`. */
  function Ratio(from: Rate, to: Rate): (r: real)
    ensures r > 0.0
  {
    from as real / to as real
  }

  /** `(len as f64 / ratio) as usize`. */
  function ResampleLength(len: nat, from: Rate, to: Rate): nat {
    CastToUsize(len as real / Ratio(from, to))
  }

  /** Integer division is the floor of the exact quotient. */
  lemma FloorOfQuotient(a: nat, b: nat)
    requires b >= 1
    ensures (a / b) as real <= a as real / b as real < (a / b) as real + 1.0
  {
    var q := a / b;
    var r := a % b;
    var x := a as real / b as real;
    var f := b as real;
    assert a == q * b + r;
    assert (q * b) as real == q as real * f;
    assert x * f == a as real;
    assert (x - q as real) * f == r as real;
    NonNegativeFactor(x - q as real, f);
    if x >= q as real + 1.0 {
      MulMono(1.0, x - q as real, f);
    }
  }

  lemma NonNegativeFactor(d: real, f: real)
    requires f > 0.0 && d * f >= 0.0
    ensures d >= 0.0
  {
  }

  lemma DivideBySelf(x: real)
    requires x > 0.0
    ensures x / x == 1.0
  {
  }

  /** Dividing by from/to is multiplying by to/from. */
  lemma DivideByRatio(len: nat, from: Rate, to: Rate)
    ensures len as real / Ratio(from, to) == (len * to) as real / from as real
  {
    var ratio := Ratio(from, to);
    var x := len as real / ratio;
    var y := (len * to) as real / from as real;
    var f := from as real;
    assert ratio * to as real == f;
    assert x * ratio == len as real;
    assert x * f == (x * ratio) * to as real;
    assert (len * to) as real == len as real * to as real;
    assert y * f == (len * to) as real;
    assert (x - y) * f == 0.0;
  }

  /** The output length is ⌊len·to/from⌋, saturated at usize::MAX. */
  lemma ResampleLengthIsFloor(len: nat, from: Rate, to: Rate)
    ensures var q := (len * to) / from;
      ResampleLength(len, from, to) == if q <= USIZE_MAX then q else USIZE_MAX
  {
    DivideByRatio(len, from, to);
    FloorOfQuotient(len * to, from);
  }

  /** Position, index and fraction in the source of output sample `i`. */
  function SourcePos(i: nat, ratio: real): real { i as real * ratio }

  function SourceIndex(i: nat, ratio: real): nat { CastToUsize(SourcePos(i, ratio)) }

  /** Output sample `i`: interpolate the two neighbours, else the last sample, else silence. */
  function ResampleAt(s: seq<real>, i: nat, ratio: real): real {
    var idx := SourceIndex(i, ratio);
    var frac := SourcePos(i, ratio) - idx as real;
    if idx + 1 < |s| then s[idx] * (1.0 - frac) + s[idx + 1] * frac
    else if idx < |s| then s[idx]
    else 0.0
  }

  /** The resampled signal as a whole. */
  function Resampled(s: seq<real>, from: Rate, to: Rate): (r: seq<real>)
    ensures |r| == ResampleLength(|s|, from, to)
  {
    var n := ResampleLength(|s|, from, to);
    seq(n, i requires 0 <= i < n => ResampleAt(s, i, Ratio(from, to)))
  }

  /** The source position of output sample `i`, scaled back by the target rate. */
  lemma SourcePosScaled(i: nat, from: Rate, to: Rate)
    ensures SourcePos(i, Ratio(from, to)) * to as real == i as real * from as real
  {
    var ratio := Ratio(from, to);
    assert ratio * to as real == from as real;
    assert SourcePos(i, ratio) * to as real == i as real * (ratio * to as real);
  }

  /** Multiplying by a positive factor can be cancelled from a strict inequality. */
  lemma CancelPositive(a: real, b: real, t: real)
    requires t > 0.0 && a * t < b * t
    ensures a < b
  {
    if a >= b {
      MulMono(b, a, t);
    }
  }

  /** Output sample `i` comes before the end of the source, scaled to whole numbers: i·from < len·to. */
  lemma OutputIndexScaled(len: nat, from: Rate, to: Rate, i: nat)
    requires i < ResampleLength(len, from, to)
    ensures i * (from as int) < len * (to as int)
  {
    var f := from as int;
    var n := len * to as int;
    var q := n / f;
    ResampleLengthIsFloor(len, from, to);
    assert i + 1 <= q;
    NatMulMono(i + 1, q, f);
    QuotientTimesDivisor(n, f);
  }

  lemma NatMulMono(a: nat, b: nat, k: nat)
    requires a <= b
    ensures a * k <= b * k
  {
    assert b * k - a * k == (b - a) * k;
  }

  lemma QuotientTimesDivisor(n: nat, f: nat)
    requires f > 0
    ensures (n / f) * f <= n
  {
    assert n == (n / f) * f + n % f;
  }

  /** Every output position lies inside the source: the silent fallback is never reached. */
  lemma ResampleStaysInside(s: seq<real>, from: Rate, to: Rate, i: nat)
    requires |s| <= USIZE_MAX && i < ResampleLength(|s|, from, to)
    ensures SourcePos(i, Ratio(from, to)) < |s| as real
    ensures SourceIndex(i, Ratio(from, to)) < |s|
  {
    var len := |s|;
    var t := to as real;
    OutputIndexScaled(len, from, to, i);
    var pos := SourcePos(i, Ratio(from, to));
    SourcePosScaled(i, from, to);
    assert (i * (from as int)) as real == i as real * from as real;
    assert (len * (to as int)) as real == len as real * t;
    CancelPositive(pos, len as real, t);
  }

  /**
   * Output sample `i` is a blend of the two source samples around its position,
   * or exactly the last source sample when it falls on that one.
   */
  lemma ResampledSample(s: seq<real>, from: Rate, to: Rate, i: nat)
    requires |s| <= USIZE_MAX && i < ResampleLength(|s|, from, to)
    ensures var idx := SourceIndex(i, Ratio(from, to));
      && idx < |s|
      && (idx + 1 < |s| ==> Min(s[idx], s[idx + 1]) <= Resampled(s, from, to)[i] <= Max(s[idx], s[idx + 1]))
      && (idx + 1 == |s| ==> Resampled(s, from, to)[i] == s[idx])
  {
    ResampleStaysInside(s, from, to, i);
    var ratio := Ratio(from, to);
    var idx := SourceIndex(i, ratio);
    var frac := SourcePos(i, ratio) - idx as real;
    assert 0.0 <= frac < 1.0;
    if idx + 1 < |s| {
      StageCommon.Blend(1.0 - frac, s[idx], s[idx + 1]);
    }
  }

  /** Resampling between equal rates gives the signal back. */
  lemma ResampleSameRate(s: seq<real>, rate: Rate)
    requires |s| <= USIZE_MAX
    ensures Resampled(s, rate, rate) == s
  {
    DivideBySelf(rate as real);
    assert Ratio(rate, rate) == 1.0;
    assert ResampleLength(|s|, rate, rate) == |s| by {
      assert |s| as real / 1.0 == |s| as real;
    }
    var r := Resampled(s, rate, rate);
    forall i | 0 <= i < |s|
      ensures r[i] == s[i]
    {
      assert SourcePos(i, 1.0) == i as real;
      assert SourceIndex(i, 1.0) == i;
      assert r[i] == ResampleAt(s, i, 1.0);
    }
  }

  // ---------------------------------------------------------------------
  // Peak normalisation

  /** `v` is the largest magnitude in `xs`. */
  ghost predicate IsPeak(xs: seq<real>, v: real) {
    && (forall i :: 0 <= i < |xs| ==> Abs(xs[i]) <= v)
    && (exists i :: 0 <= i < |xs| && Abs(xs[i]) == v)
  }

  /** The fold over `|x|` with `max`, from the left; `None` for no samples. */
  function Peak(xs: seq<real>): (r: Option<real>)
    ensures r.Some? <==> |xs| > 0
  {
    if |xs| == 0 then None
    else
      var m := Peak(xs[..|xs| - 1]);
      var last := Abs(xs[|xs| - 1]);
      Some(if m.None? then last else Max(m.value, last))
  }

  /** The fold yields the largest magnitude. */
  lemma {:induction false} PeakIsLargest(xs: seq<real>)
    requires |xs| > 0
    ensures IsPeak(xs, Peak(xs).value)
  {
    var init := xs[..|xs| - 1];
    var n := |xs| - 1;
    var v := Peak(xs).value;
    if |init| == 0 {
      assert Abs(xs[0]) == v;
    } else {
      PeakIsLargest(init);
      var u := Peak(init).value;
      assert v == Max(u, Abs(xs[n]));
      forall i | 0 <= i < |xs|
        ensures Abs(xs[i]) <= v
      {
        if i < n {
          assert xs[i] == init[i];
        }
      }
      if v == u {
        var k :| 0 <= k < |init| && Abs(init[k]) == u;
        assert xs[k] == init[k];
      } else {
        assert Abs(xs[n]) == v;
      }
    }
  }

  /** A largest magnitude is unique. */
  lemma PeakUnique(xs: seq<real>, u: real, v: real)
    requires IsPeak(xs, u) && IsPeak(xs, v)
    ensures u == v
  {
    var i :| 0 <= i < |xs| && Abs(xs[i]) == u;
    var j :| 0 <= j < |xs| && Abs(xs[j]) == v;
    assert Abs(xs[j]) <= u && Abs(xs[i]) <= v;
  }

  function Scaled(xs: seq<real>, g: real): (r: seq<real>)
    ensures |r| == |xs|
  {
    seq(|xs|, i requires 0 <= i < |xs| => xs[i] * g)
  }

  /** Scaling by 0.9/peak when the peak is above zero; otherwise the samples as they are. */
  function Normalized(xs: seq<real>): (r: seq<real>)
    ensures |r| == |xs|
  {
    var p := Peak(xs);
    if p.Some? && p.value > 0.0 then Scaled(xs, 0.9 / p.value) else xs
  }

  lemma QuotientScale(c: real, m: real, g: real)
    requires c > 0.0 && m > 0.0 && g == c / m
    ensures m * g == c && g > 0.0
  {
  }

  /** Scaling by a positive factor scales the largest magnitude by it. */
  lemma ScaledPeak(xs: seq<real>, m: real, g: real, v: real)
    requires g > 0.0 && IsPeak(xs, m) && v == m * g
    ensures IsPeak(Scaled(xs, g), v)
  {
    ScaledBelow(xs, m, g, v);
    var k :| 0 <= k < |xs| && Abs(xs[k]) == m;
    ScaledAt(xs, g, k, v);
  }

  lemma ScaledBelow(xs: seq<real>, m: real, g: real, v: real)
    requires g > 0.0 && v == m * g
    requires forall i :: 0 <= i < |xs| ==> Abs(xs[i]) <= m
    ensures forall i :: 0 <= i < |xs| ==> Abs(Scaled(xs, g)[i]) <= v
  {
    var ys := Scaled(xs, g);
    forall i | 0 <= i < |xs|
      ensures Abs(ys[i]) <= v
    {
      AbsScale(g, xs[i]);
      assert ys[i] == g * xs[i];
      MulMono(Abs(xs[i]), m, g);
    }
  }

  lemma ScaledAt(xs: seq<real>, g: real, k: nat, v: real)
    requires g > 0.0 && k < |xs| && v == Abs(xs[k]) * g
    ensures Abs(Scaled(xs, g)[k]) == v
  {
    AbsScale(g, xs[k]);
    assert Scaled(xs, g)[k] == g * xs[k];
  }

  lemma SameProduct(a: real, b: real, g: real)
    requires a == b
    ensures a * g == b * g
  {
  }

  /** After normalisation the peak is 0.9. */
  lemma NormalizedPeak(xs: seq<real>)
    requires Peak(xs).Some? && Peak(xs).value > 0.0
    ensures Peak(Normalized(xs)) == Some(0.9)
  {
    PeakIsLargest(xs);
    var m := Peak(xs).value;
    var g := 0.9 / m;
    QuotientScale(0.9, m, g);
    var ys := Scaled(xs, g);
    ScaledPeak(xs, m, g, m * g);
    assert Normalized(xs) == ys;
    PeakIsLargest(ys);
    PeakUnique(ys, Peak(ys).value, m * g);
  }

  /** An IR whose peak is zero is all zeros, and normalisation leaves it as it is. */
  lemma ZeroPeakKept(xs: seq<real>)
    requires Peak(xs) == Some(0.0)
    ensures Normalized(xs) == xs
    ensures forall i :: 0 <= i < |xs| ==> xs[i] == 0.0
  {
    PeakIsLargest(xs);
    forall i | 0 <= i < |xs|
      ensures xs[i] == 0.0
    {
      assert Abs(xs[i]) <= 0.0;
    }
  }

  /** `for s in &mut xs { *s *= g }`: every sample multiplied by `g` in place. */
  method ScaleInPlace(a: array<real>, g: real)
    modifies a
    ensures a[..] == Scaled(old(a[..]), g)
  {
    ghost var xs := a[..];
    for i := 0 to a.Length
      invariant forall j :: 0 <= j < i ==> a[j] == xs[j] * g
      invariant forall j :: i <= j < a.Length ==> a[j] == xs[j]
    {
      a[i] := a[i] * g;
    }
    forall j | 0 <= j < a.Length
      ensures a[..][j] == Scaled(xs, g)[j]
    {
    }
  }

  /** The peak fold, then scaling by 0.9/peak when the peak is above zero. */
  method Normalize(a: array<real>)
    modifies a
    ensures a[..] == Normalized(old(a[..]))
  {
    var p := Peak(a[..]);
    if p.Some? && p.value > 0.0 {
      ScaleInPlace(a, 0.9 / p.value);
    }
  }

  /** `resample_linear`: one output sample per step, pushed in order. */
  method ResampleLinear(s: seq<real>, from: Rate, to: Rate) returns (out: seq<real>)
    ensures out == Resampled(s, from, to)
  {
    var ratio := from as real / to as real;
    var n := CastToUsize(|s| as real / ratio);
    out := [];
    for i := 0 to n
      invariant |out| == i
      invariant forall j :: 0 <= j < i ==> out[j] == ResampleAt(s, j, ratio)
    {
      var pos := SourcePos(i, ratio);
      var idx := CastToUsize(pos);
      var frac := pos - idx as real;
      var x;
      if idx + 1 < |s| {
        x := s[idx] * (1.0 - frac) + s[idx + 1] * frac;
      } else if idx < |s| {
        x := s[idx];
      } else {
        x := 0.0;
      }
      assert x == ResampleAt(s, i, ratio);
      out := out + [x];
    }
  }

  /** Everything `load_ir` does to the samples of a file it could read. */
  function Prepared(w: Wav, target: Rate): seq<real> {
    var mono := Mixdown(ToFloats(w.data), w.channels);
    Normalized(if w.sampleRate != target then Resampled(mono, w.sampleRate, target) else mono)
  }

  /** `load_ir`: decoder errors pass through, otherwise the prepared samples. */
  function LoadedIr(read: WavReader, path: string, target: Rate): Result<seq<real>> {
    match read(path)
    case Err(e) => Err(e)
    case Ok(w) => Ok(Prepared(w, target))
  }

  /** A loaded file with some non-zero sample peaks at exactly 0.9. */
  lemma LoadedIrPeak(read: WavReader, path: string, target: Rate)
    requires LoadedIr(read, path, target).Ok?
    ensures var xs := LoadedIr(read, path, target).value;
      (exists i :: 0 <= i < |xs| && xs[i] != 0.0) ==> Peak(xs) == Some(0.9)
  {
    var w := read(path).value;
    var mono := Mixdown(ToFloats(w.data), w.channels);
    var r := if w.sampleRate != target then Resampled(mono, w.sampleRate, target) else mono;
    var xs := Normalized(r);
    if exists i :: 0 <= i < |xs| && xs[i] != 0.0 {
      var i :| 0 <= i < |xs| && xs[i] != 0.0;
      PeakIsLargest(r);
      if Peak(r).value == 0.0 {
        ZeroPeakKept(r);
      } else {
        NormalizedPeak(r);
      }
    }
  }

  // ---------------------------------------------------------------------
  // IR list order

  /** Number of `/` separators in a relative name: its directory depth. */
  function SepCount(s: string): (n: nat)
    ensures n <= |s|
  {
    if |s| == 0 then 0 else SepCount(s[..|s| - 1]) + (if s[|s| - 1] == '/' then 1 else 0)
  }

  /** The comparator of `scan_ir_directory`: shallower names first, then by name. */
  predicate IrBefore(a: IrEntry, b: IrEntry) {
    SepCount(a.0) < SepCount(b.0) || (SepCount(a.0) == SepCount(b.0) && LexLe(a.0, b.0))
  }

  lemma IrBeforeIsTotalPreorder()
    ensures TotalPreorder(IrBefore)
  {
    forall a: IrEntry, b: IrEntry
      ensures IrBefore(a, b) || IrBefore(b, a)
    {
      LexTotal(a.0, b.0);
    }
    forall a: IrEntry, b: IrEntry, c: IrEntry | IrBefore(a, b) && IrBefore(b, c)
      ensures IrBefore(a, c)
    {
      if SepCount(a.0) == SepCount(b.0) == SepCount(c.0) {
        LexTrans(a.0, b.0, c.0);
      }
    }
  }

  function SortIrEntries(es: seq<IrEntry>): seq<IrEntry> {
    Sort(es, IrBefore)
  }

  /**
   * The sorted list holds the same entries, by non-decreasing depth, and by
   * name among entries of equal depth.
   */
  lemma SortedIrEntries(es: seq<IrEntry>)
    ensures var r := SortIrEntries(es);
      && multiset(r) == multiset(es)
      && (forall i, j :: 0 <= i < j < |r| ==> SepCount(r[i].0) <= SepCount(r[j].0))
      && (forall i, j :: 0 <= i < j < |r| && SepCount(r[i].0) == SepCount(r[j].0) ==> LexLe(r[i].0, r[j].0))
  {
    IrBeforeIsTotalPreorder();
    SortSorted(es, IrBefore);
    var r := SortIrEntries(es);
    forall i, j | 0 <= i < j < |r|
      ensures SepCount(r[i].0) <= SepCount(r[j].0)
    {
      assert IrBefore(r[i], r[j]);
    }
  }

  // ---------------------------------------------------------------------
  // Lookup

  /** Index of the first entry named `name`. */
  function FirstNamed(es: seq<IrEntry>, name: string): (r: Option<nat>)
    ensures r.Some? ==> r.value < |es| && es[r.value].0 == name
    ensures r.Some? ==> forall j :: 0 <= j < r.value ==> es[j].0 != name
    ensures r.None? ==> forall j :: 0 <= j < |es| ==> es[j].0 != name
  {
    if |es| == 0 then None
    else if es[0].0 == name then Some(0)
    else
      var r := FirstNamed(es[1..], name);
      if r.Some? then Some(r.value + 1) else None
  }

  function NotFound(name: string): string {
    "ir name '" + name + "' not found"
  }

  /** What `load_by_name` yields for a list of entries. */
  function LookedUp(es: seq<IrEntry>, read: WavReader, name: string, target: Rate): Result<seq<real>> {
    var k := FirstNamed(es, name);
    if k.Some? then LoadedIr(read, es[k.value].1, target) else Err(NotFound(name))
  }

  class IrLoader {
    var availableIrPaths: seq<IrEntry>
    var irDirectory: string
    var targetSampleRate: Rate

    /** The loader before its first scan. */
    constructor (directory: string, target: Rate)
      ensures availableIrPaths == [] && irDirectory == directory && targetSampleRate == target
    {
      availableIrPaths := [];
      irDirectory := directory;
      targetSampleRate := target;
    }

    /**
     * `scan_ir_directory`: a missing directory is created and the list kept; a
     * failed walk keeps what it had pushed; a complete walk is sorted.
     */
    method ScanIrDirectory(scan: DirScan) returns (r: Result<Unit>)
      modifies this`availableIrPaths
      ensures scan.Absent? ==> availableIrPaths == old(availableIrPaths)
      ensures scan.Absent? ==> r == if scan.created then Ok(Unit) else Err("Failed to create IR directory")
      ensures scan.ReadFailed? ==> availableIrPaths == scan.partial && r == Err(scan.message)
      ensures scan.Listed? ==> availableIrPaths == SortIrEntries(scan.entries) && r == Ok(Unit)
    {
      match scan
      case Absent(created) =>
        r := if created then Ok(Unit) else Err("Failed to create IR directory");
      case ReadFailed(partial, message) =>
        availableIrPaths := partial;
        r := Err(message);
      case Listed(entries) =>
        availableIrPaths := SortIrEntries(entries);
        r := Ok(Unit);
    }

    /** `load_ir`. */
    method LoadIr(read: WavReader, path: string) returns (r: Result<seq<real>>)
      ensures r == LoadedIr(read, path, targetSampleRate)
    {
      var file := read(path);
      if file.Err? {
        return Err(file.error);
      }
      var w := file.value;
      var samples := ToFloats(w.data);
      var mono := Mixdown(samples, w.channels);
      var resampled := mono;
      if w.sampleRate != targetSampleRate {
        resampled := ResampleLinear(mono, w.sampleRate, targetSampleRate);
      }
      var buf := new real[|resampled|](i requires 0 <= i < |resampled| => resampled[i]);
      assert buf[..] == resampled;
      Normalize(buf);
      r := Ok(buf[..]);
    }

    /** `get_first`: the first entry of the sorted list, or an error for an empty list. */
    method GetFirst(read: WavReader) returns (r: Result<seq<real>>)
      ensures |availableIrPaths| == 0 ==> r == Err("available_ir_paths is empty")
      ensures |availableIrPaths| > 0 ==> r == LoadedIr(read, availableIrPaths[0].1, targetSampleRate)
    {
      if |availableIrPaths| == 0 {
        return Err("available_ir_paths is empty");
      }
      r := LoadIr(read, availableIrPaths[0].1);
    }

    /** `load_by_name`: the first entry with that name is loaded; none gives an error. */
    method LoadByName(read: WavReader, name: string) returns (r: Result<seq<real>>)
      ensures r == LookedUp(availableIrPaths, read, name, targetSampleRate)
    {
      var i := 0;
      while i < |availableIrPaths|
        invariant i <= |availableIrPaths|
        invariant forall j :: 0 <= j < i ==> availableIrPaths[j].0 != name
      {
        if availableIrPaths[i].0 == name {
          r := LoadIr(read, availableIrPaths[i].1);
          return;
        }
        i := i + 1;
      }
      r := Err(NotFound(name));
    }
  }

  /** `IrLoader::new`: build the loader, then scan; a failed scan fails the construction. */
  method NewIrLoader(directory: string, target: Rate, scan: DirScan) returns (r: Result<IrLoader>)
    ensures r.Ok? <==> (scan.Listed? || (scan.Absent? && scan.created))
    ensures r.Ok? ==> fresh(r.value) && r.value.targetSampleRate == target && r.value.irDirectory == directory
    ensures r.Ok? ==> r.value.availableIrPaths == if scan.Listed? then SortIrEntries(scan.entries) else []
    ensures r.Err? ==> r.error == if scan.ReadFailed? then scan.message else "Failed to create IR directory"
  {
    var loader := new IrLoader(directory, target);
    var s := loader.ScanIrDirectory(scan);
    if s.Err? {
      return Err(s.error);
    }
    r := Ok(loader);
  }
}

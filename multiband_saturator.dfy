/*
 * The multiband saturator (src/amp/stages/multiband_saturator.rs): the
 * input is split into low, mid and high bands by Linkwitz-Riley crossovers,
 * each band is soft-saturated with an envelope-dependent gain compensation,
 * DC-blocked, scaled by its level, and the three bands are summed.
 */
module MultibandSaturator {
  import opened Common
  import opened MathLib
  import opened StageCommon

  /** std::f32::consts::FRAC_1_SQRT_2, the Butterworth Q of each biquad. */
  const BUTTERWORTH_Q: real := 0.7071067811865476

  /** Above this envelope level a band's saturation is gain-compensated. */
  const ENV_GATE: real := 0.0001

  /** The band followers' attack and release, and the DC blockers' cutoff. */
  const BAND_ATTACK_MS: real := 1.0
  const BAND_RELEASE_MS: real := 50.0
  const DC_CUTOFF_HZ: real := 15.0

  /** The coefficients shared by both biquads of an LR4 filter (a0 normalised to 1). */
  datatype Coeffs = Coeffs(b0: real, b1: real, b2: real, a1: real, a2: real)

  /** One biquad's history: the last two inputs and the last two outputs. */
  datatype BiquadState = BiquadState(x1: real, x2: real, y1: real, y2: real)

  const AT_REST: BiquadState := BiquadState(0.0, 0.0, 0.0, 0.0)

  /** A fourth-order Linkwitz-Riley filter: two cascaded biquads with the same coefficients. */
  datatype LR4Filter = LR4Filter(first: BiquadState, second: BiquadState, coeffs: Coeffs, isHighpass: bool)

  /** sin(ω)/(2Q) stays above -1, so the normalising a0 = 1 + α is positive. */
  lemma AlphaAboveMinusOne(s: real)
    requires -1.0 <= s <= 1.0
    ensures s / (2.0 * BUTTERWORTH_Q) > -1.0
  {
    var k := 2.0 * BUTTERWORTH_Q;
    var a := s / k;
    assert a * k == s;
    if a <= -1.0 {
      MulMono(a, -1.0, k);
      assert false;
    }
  }

  /**
   * set_cutoff: ω = 2π·cutoff/sample_rate, α = sin ω/(2Q), and the RBJ
   * cookbook biquad for cos ω and α, as a lowpass or a highpass.
   */
  function Design(m: MathLib, cutoffHz: real, sampleRate: real, highpass: bool): (c: Coeffs)
    requires Lawful(m) && sampleRate != 0.0
  {
    var omega := 2.0 * PI * cutoffHz / sampleRate;
    AlphaAboveMinusOne(m.sin(omega));
    Cookbook(m.cos(omega), m.sin(omega) / (2.0 * BUTTERWORTH_Q), highpass)
  }

  /** The cookbook coefficients, each normalised by a0 = 1 + α. */
  function Cookbook(cosW: real, alpha: real, highpass: bool): Coeffs
    requires alpha > -1.0
  {
    var a0 := 1.0 + alpha;
    if highpass then
      Coeffs(((1.0 + cosW) / 2.0) / a0, (-(1.0 + cosW)) / a0, ((1.0 + cosW) / 2.0) / a0,
             (-2.0 * cosW) / a0, (1.0 - alpha) / a0)
    else
      Coeffs(((1.0 - cosW) / 2.0) / a0, (1.0 - cosW) / a0, ((1.0 - cosW) / 2.0) / a0,
             (-2.0 * cosW) / a0, (1.0 - alpha) / a0)
  }

  /**
   * The designs' gains at the two ends of the spectrum: the lowpass passes
   * DC (z = 1) with unit gain and removes Nyquist (z = -1); the highpass
   * does the reverse. The gain at z = ±1 is (b0 ± b1 + b2)/(1 ± a1 + a2).
   */
  lemma DesignEdgeGains(m: MathLib, cutoffHz: real, sampleRate: real)
    requires Lawful(m) && sampleRate != 0.0
    ensures var lp := Design(m, cutoffHz, sampleRate, false);
      && lp.b0 + lp.b1 + lp.b2 == 1.0 + lp.a1 + lp.a2
      && lp.b0 - lp.b1 + lp.b2 == 0.0
    ensures var hp := Design(m, cutoffHz, sampleRate, true);
      && hp.b0 + hp.b1 + hp.b2 == 0.0
      && hp.b0 - hp.b1 + hp.b2 == 1.0 - hp.a1 + hp.a2
  {
    var omega := 2.0 * PI * cutoffHz / sampleRate;
    AlphaAboveMinusOne(m.sin(omega));
    var alpha := m.sin(omega) / (2.0 * BUTTERWORTH_Q);
    LowpassEdgeGains(m.cos(omega), alpha);
    HighpassEdgeGains(m.cos(omega), alpha);
  }

  lemma LowpassEdgeGains(cosW: real, alpha: real)
    requires alpha > -1.0
    ensures var lp := Cookbook(cosW, alpha, false);
      && lp.b0 + lp.b1 + lp.b2 == 1.0 + lp.a1 + lp.a2
      && lp.b0 - lp.b1 + lp.b2 == 0.0
  {
    var a0 := 1.0 + alpha;
    var h := (1.0 - cosW) / 2.0;
    SumOverA0(h, 1.0 - cosW, h, a0);
    SumOverA0(h, -(1.0 - cosW), h, a0);
    SumOverA0(a0, -2.0 * cosW, 1.0 - alpha, a0);
    assert a0 / a0 == 1.0;
  }

  lemma HighpassEdgeGains(cosW: real, alpha: real)
    requires alpha > -1.0
    ensures var hp := Cookbook(cosW, alpha, true);
      && hp.b0 + hp.b1 + hp.b2 == 0.0
      && hp.b0 - hp.b1 + hp.b2 == 1.0 - hp.a1 + hp.a2
  {
    var a0 := 1.0 + alpha;
    var h := (1.0 + cosW) / 2.0;
    SumOverA0(h, -(1.0 + cosW), h, a0);
    SumOverA0(h, 1.0 + cosW, h, a0);
    SumOverA0(a0, 2.0 * cosW, 1.0 - alpha, a0);
    assert a0 / a0 == 1.0;
  }

  /** Adding three fractions over the same a0. */
  lemma SumOverA0(p: real, q: real, r: real, a0: real)
    requires a0 != 0.0
    ensures p / a0 + q / a0 + r / a0 == (p + q + r) / a0
    ensures -(q / a0) == (-q) / a0
  {
  }

  /** One biquad sample, direct form I: y = b0·x + b1·x1 + b2·x2 - a1·y1 - a2·y2, then the history shifts. */
  function BiquadStep(c: Coeffs, s: BiquadState, x: real): (r: (BiquadState, real)) {
    var y := c.b0 * x + c.b1 * s.x1 + c.b2 * s.x2 - c.a1 * s.y1 - c.a2 * s.y2;
    (BiquadState(x, s.x1, y, s.y1), y)
  }

  /** A biquad at rest stays at rest on silence, whatever its coefficients. */
  lemma BiquadSilence(c: Coeffs)
    ensures BiquadStep(c, AT_REST, 0.0) == (AT_REST, 0.0)
  {
  }

  /** The history shifts: the new x1 and y1 are this sample's input and output, the old ones move to x2 and y2. */
  lemma BiquadShifts(c: Coeffs, s: BiquadState, x: real)
    ensures var (s1, y) := BiquadStep(c, s, x);
      s1.x1 == x && s1.x2 == s.x1 && s1.y1 == y && s1.y2 == s.y1
  {
  }

  /** LR4Filter::new: both histories at rest, the coefficients designed for the cutoff. */
  function NewFilter(m: MathLib, cutoffHz: real, sampleRate: real, highpass: bool): (f: LR4Filter)
    requires Lawful(m) && sampleRate != 0.0
    ensures f.first == AT_REST && f.second == AT_REST && f.isHighpass == highpass
    ensures f.coeffs == Design(m, cutoffHz, sampleRate, highpass)
  {
    SetCutoff(LR4Filter(AT_REST, AT_REST, Coeffs(0.0, 0.0, 0.0, 0.0, 0.0), highpass), m, cutoffHz, sampleRate)
  }

  /** set_cutoff: new coefficients for the filter's own kind; the histories are kept. */
  function SetCutoff(f: LR4Filter, m: MathLib, cutoffHz: real, sampleRate: real): (g: LR4Filter)
    requires Lawful(m) && sampleRate != 0.0
    ensures g.first == f.first && g.second == f.second && g.isHighpass == f.isHighpass
    ensures g.coeffs == Design(m, cutoffHz, sampleRate, f.isHighpass)
  {
    f.(coeffs := Design(m, cutoffHz, sampleRate, f.isHighpass))
  }

  /** LR4Filter::process: the input through the first biquad, its output through the second. */
  function FilterStep(f: LR4Filter, x: real): (r: (LR4Filter, real))
    ensures r.0.coeffs == f.coeffs && r.0.isHighpass == f.isHighpass
  {
    var (first, y1) := BiquadStep(f.coeffs, f.first, x);
    var (second, y2) := BiquadStep(f.coeffs, f.second, y1);
    (f.(first := first, second := second), y2)
  }

  /** A filter at rest stays at rest on silence and outputs silence. */
  lemma FilterSilence(f: LR4Filter)
    requires f.first == AT_REST && f.second == AT_REST
    ensures FilterStep(f, 0.0) == (f, 0.0)
  {
    BiquadSilence(f.coeffs);
  }

  /** The drive scaling 1 + 9·drive: 1 (clean) up to 10. */
  function DriveScale(drive: real): real {
    1.0 + drive * 9.0
  }

  /** The soft clipper x / (1 + |x|): bounded by 1, sign-preserving, never louder than its input. */
  function SoftClip(x: real): (y: real)
    ensures -1.0 < y < 1.0
    ensures x > 0.0 ==> y > 0.0
    ensures x < 0.0 ==> y < 0.0
    ensures x == 0.0 ==> y == 0.0
    ensures Abs(y) <= Abs(x)
  {
    SoftClipFacts(x);
    x / (1.0 + Abs(x))
  }

  lemma SoftClipFacts(x: real)
    ensures var y := x / (1.0 + Abs(x));
      && -1.0 < y < 1.0 && (x > 0.0 ==> y > 0.0) && (x < 0.0 ==> y < 0.0) && Abs(y) <= Abs(x)
  {
    var d := 1.0 + Abs(x);
    var y := x / d;
    assert y * d == x;
    if x >= 0.0 {
      ClipNonNegative(x, d, y);
    } else {
      ClipNonNegative(-x, d, -y);
    }
  }

  /** For x >= 0, the y with y·(1 + x) = x lies in [0, 1), is positive when x is, and is at most x. */
  lemma ClipNonNegative(x: real, d: real, y: real)
    requires x >= 0.0 && d == 1.0 + x && y * d == x
    ensures 0.0 <= y < 1.0 && (x > 0.0 ==> y > 0.0) && y <= x
  {
    if y < 0.0 {
      MulStrict(y, 0.0, d);
      assert false;
    }
    if y >= 1.0 {
      MulMono(1.0, y, d);
      assert false;
    }
    MulMono(0.0, y, x);
    assert y * d == y + y * x;
    assert x == y + y * x;
    assert y * x >= 0.0;
  }

  /** saturate: the input scaled by the drive, then soft-clipped. */
  function Saturate(input: real, drive: real): (y: real)
    ensures -1.0 < y < 1.0
  {
    SoftClip(input * DriveScale(drive))
  }

  /** saturate is odd in its input. */
  lemma SaturateOdd(x: real, drive: real)
    ensures Saturate(-x, drive) == -Saturate(x, drive)
  {
    var k := DriveScale(drive);
    assert -x * k == -(x * k);
  }

  /** With no drive saturate is the plain soft clipper x / (1 + |x|). */
  lemma SaturateClean(x: real)
    ensures Saturate(x, 0.0) == x / (1.0 + Abs(x))
  {
  }

  /**
   * A band's saturation: above the envelope gate the band is divided by
   * 1 + env before saturation and multiplied by 1 + env/2 after it;
   * otherwise it is saturated as it is.
   */
  function BandSaturate(x: real, env: real, drive: real): real {
    if env > ENV_GATE then Saturate(x / (1.0 + env), drive) * (1.0 + env * 0.5)
    else Saturate(x, drive)
  }

  /** A saturated band stays below 1 + env/2 in magnitude, and below 1 while the envelope is under the gate. */
  lemma BandSaturateBounded(x: real, env: real, drive: real)
    ensures Abs(BandSaturate(x, env, drive)) < 1.0 + Max(env, 0.0) * 0.5
    ensures env <= ENV_GATE ==> Abs(BandSaturate(x, env, drive)) < 1.0
  {
    if env > ENV_GATE {
      var g := 1.0 + env * 0.5;
      ClippedTimesGain(Saturate(x / (1.0 + env), drive), g);
    } else {
      MulMono(0.0, Max(env, 0.0), 0.5);
    }
  }

  /** A value inside (-1, 1) times a positive gain stays below the gain in magnitude. */
  lemma ClippedTimesGain(s: real, g: real)
    requires -1.0 < s < 1.0 && g > 0.0
    ensures Abs(s * g) < g
  {
    AbsScale(g, s);
    assert s * g == g * s;
    MulStrict(Abs(s), 1.0, g);
    assert Abs(s) * g == g * Abs(s);
  }

  /** Multiplying a strict inequality by a positive factor keeps it strict. */
  lemma MulStrict(a: real, b: real, k: real)
    requires a < b && k > 0.0
    ensures a * k < b * k
  {
    assert b * k - a * k == (b - a) * k;
  }

  /** The three crossover outputs and the low band's allpass compensation. */
  datatype Bands = Bands(low: real, mid: real, high: real)

  /** The final sum: each cleaned band scaled by its level. */
  function MixBands(b: Bands, lowLevel: real, midLevel: real, highLevel: real): real {
    b.low * lowLevel + b.mid * midLevel + b.high * highLevel
  }

  /** The stage's eight parameters. */
  datatype Settings = MakeSettings(
    lowDrive: real, midDrive: real, highDrive: real,
    lowLevel: real, midLevel: real, highLevel: real,
    lowFreq: real, highFreq: real)

  /** The eight parameters set_parameter and get_parameter know. */
  datatype Param = LowDrive | MidDrive | HighDrive | LowLevel | MidLevel | HighLevel | LowFreq | HighFreq

  /** Each parameter's name as the stage is addressed by it. */
  function ParamName(p: Param): string {
    match p
    case LowDrive => "low_drive"
    case MidDrive => "mid_drive"
    case HighDrive => "high_drive"
    case LowLevel => "low_level"
    case MidLevel => "mid_level"
    case HighLevel => "high_level"
    case LowFreq => "low_freq"
    case HighFreq => "high_freq"
  }

  /** The parameter a name addresses, or none for an unknown name. */
  function ParseParam(name: string): (r: Option<Param>)
    ensures r.Some? ==> ParamName(r.value) == name
  {
    match name
    case "low_drive" => Some(LowDrive)
    case "mid_drive" => Some(MidDrive)
    case "high_drive" => Some(HighDrive)
    case "low_level" => Some(LowLevel)
    case "mid_level" => Some(MidLevel)
    case "high_level" => Some(HighLevel)
    case "low_freq" => Some(LowFreq)
    case "high_freq" => Some(HighFreq)
    case _ => None
  }

  /** Every parameter is found again under its own name, so no two share a name. */
  lemma ParseParamName(p: Param)
    ensures ParseParam(ParamName(p)) == Some(p)
  {
    match p
    case LowDrive =>
    case MidDrive =>
    case HighDrive =>
    case LowLevel =>
    case MidLevel =>
    case HighLevel =>
    case LowFreq =>
    case HighFreq =>
  }

  /** The settings with one parameter replaced and every other one kept. */
  function WithParameter(s: Settings, p: Param, value: real): Settings {
    match p
    case LowDrive => s.(lowDrive := value)
    case MidDrive => s.(midDrive := value)
    case HighDrive => s.(highDrive := value)
    case LowLevel => s.(lowLevel := value)
    case MidLevel => s.(midLevel := value)
    case HighLevel => s.(highLevel := value)
    case LowFreq => s.(lowFreq := value)
    case HighFreq => s.(highFreq := value)
  }

  /** One parameter's stored value. */
  function ValueOf(s: Settings, p: Param): real {
    match p
    case LowDrive => s.lowDrive
    case MidDrive => s.midDrive
    case HighDrive => s.highDrive
    case LowLevel => s.lowLevel
    case MidLevel => s.midLevel
    case HighLevel => s.highLevel
    case LowFreq => s.lowFreq
    case HighFreq => s.highFreq
  }

  /** The ranges set_parameter accepts: drives in [0, 1], levels in [0, 2], low_freq in [50, 500] Hz and high_freq in [1000, 6000] Hz. */
  predicate Accepts(p: Param, value: real) {
    match p
    case LowDrive | MidDrive | HighDrive => 0.0 <= value <= 1.0
    case LowLevel | MidLevel | HighLevel => 0.0 <= value <= 2.0
    case LowFreq => 50.0 <= value <= 500.0
    case HighFreq => 1000.0 <= value <= 6000.0
  }

  /** The two crossover frequencies, whose change redesigns the filters. */
  predicate IsCrossover(p: Param) {
    p == LowFreq || p == HighFreq
  }

  /** get_parameter on a settings value: a known name reads its own parameter, an unknown one is an error. */
  function ParameterOf(s: Settings, name: string): (r: Result<real>)
    ensures r.Ok? <==> ParseParam(name).Some?
    ensures r.Ok? ==> r.value == ValueOf(s, ParseParam(name).value)
    ensures r.Err? ==> r.error == "Unknown parameter"
  {
    match ParseParam(name)
    case Some(p) => Ok(ValueOf(s, p))
    case None => Err("Unknown parameter")
  }

  /**
   * Setting then getting: the set parameter reads back as the value set,
   * and every other name reads back as before.
   */
  lemma SetThenGet(s: Settings, p: Param, value: real, other: string)
    ensures ParameterOf(WithParameter(s, p, value), ParamName(p)) == Ok(value)
    ensures other != ParamName(p) ==> ParameterOf(WithParameter(s, p, value), other) == ParameterOf(s, other)
  {
    ParseParamName(p);
  }

  /**
   * A tuned stage stays tuned through set_parameter: a frequency change
   * retunes all six filters to the new settings, and any other change
   * leaves the filters and both frequencies as they were.
   */
  lemma SettingKeepsTuned(m: MathLib, f: Crossovers, s: Settings, p: Param, value: real, sampleRate: real)
    requires Lawful(m) && sampleRate != 0.0
    requires TunedTo(m, f, s.lowFreq, s.highFreq, sampleRate)
    ensures var s1 := WithParameter(s, p, value);
      var f1 := if IsCrossover(p) then Retune(f, m, s1.lowFreq, s1.highFreq, sampleRate) else f;
      TunedTo(m, f1, s1.lowFreq, s1.highFreq, sampleRate)
  {
  }

  /** A filter whose coefficients are its own kind's design for the cutoff. */
  ghost predicate DesignedFor(m: MathLib, f: LR4Filter, cutoffHz: real, sampleRate: real)
    requires Lawful(m) && sampleRate != 0.0
  {
    f.coeffs == Design(m, cutoffHz, sampleRate, f.isHighpass)
  }

  /** The six crossover filters: low_lp, mid_hp_low, mid_lp_high, high_hp, low_allpass_lp, low_allpass_hp. */
  type Crossovers = (LR4Filter, LR4Filter, LR4Filter, LR4Filter, LR4Filter, LR4Filter)

  /** Each crossover filter of its kind: lowpass for low_lp, mid_lp_high and low_allpass_lp, highpass for the rest. */
  predicate Kinds(f: Crossovers) {
    && !f.0.isHighpass && f.1.isHighpass && !f.2.isHighpass
    && f.3.isHighpass && !f.4.isHighpass && f.5.isHighpass
  }

  /** The filters' biquad histories, without their coefficients. */
  function Histories(f: Crossovers): seq<(BiquadState, BiquadState)> {
    [(f.0.first, f.0.second), (f.1.first, f.1.second), (f.2.first, f.2.second),
     (f.3.first, f.3.second), (f.4.first, f.4.second), (f.5.first, f.5.second)]
  }

  /**
   * update_crossover_frequencies on the filters: the low/mid pair set to
   * low_freq, the other four to high_freq. Afterwards every filter is its
   * kind's design for its frequency, and kinds and histories are kept.
   */
  function Retune(f: Crossovers, m: MathLib, lowFreq: real, highFreq: real, sampleRate: real): (g: Crossovers)
    requires Lawful(m) && sampleRate != 0.0
    ensures TunedTo(m, g, lowFreq, highFreq, sampleRate)
    ensures Kinds(g) <==> Kinds(f)
    ensures Histories(g) == Histories(f)
  {
    (SetCutoff(f.0, m, lowFreq, sampleRate), SetCutoff(f.1, m, lowFreq, sampleRate),
     SetCutoff(f.2, m, highFreq, sampleRate), SetCutoff(f.3, m, highFreq, sampleRate),
     SetCutoff(f.4, m, highFreq, sampleRate), SetCutoff(f.5, m, highFreq, sampleRate))
  }

  /** The six filters (low_lp, mid_hp_low, mid_lp_high, high_hp and the allpass pair) designed for the two crossover frequencies. */
  ghost predicate TunedTo(m: MathLib, f: Crossovers,
                          lowFreq: real, highFreq: real, sampleRate: real)
    requires Lawful(m) && sampleRate != 0.0
  {
    && DesignedFor(m, f.0, lowFreq, sampleRate)
    && DesignedFor(m, f.1, lowFreq, sampleRate)
    && DesignedFor(m, f.2, highFreq, sampleRate)
    && DesignedFor(m, f.3, highFreq, sampleRate)
    && DesignedFor(m, f.4, highFreq, sampleRate)
    && DesignedFor(m, f.5, highFreq, sampleRate)
  }

  class MultibandSaturatorStage {
    var lowLp: LR4Filter
    var midHpLow: LR4Filter
    var midLpHigh: LR4Filter
    var highHp: LR4Filter
    var lowAllpassLp: LR4Filter
    var lowAllpassHp: LR4Filter

    const lowEnv: EnvelopeFollower
    const midEnv: EnvelopeFollower
    const highEnv: EnvelopeFollower

    const lowDc: DcBlocker
    const midDc: DcBlocker
    const highDc: DcBlocker

    var lowDrive: real
    var midDrive: real
    var highDrive: real
    var lowLevel: real
    var midLevel: real
    var highLevel: real
    var lowFreq: real
    var highFreq: real

    const sampleRate: real

    /**
     * The three followers and the three blockers are separate objects, the
     * sample rate can be divided by, and each crossover filter is of its
     * kind: lowpass for low_lp, mid_lp_high and low_allpass_lp, highpass
     * for the other three.
     */
    ghost predicate Valid()
      reads this
    {
      && lowEnv != midEnv && lowEnv != highEnv && midEnv != highEnv
      && lowDc != midDc && lowDc != highDc && midDc != highDc
      && sampleRate != 0.0
      && Kinds(Filters())
    }

    /**
     * Every crossover filter is designed for the frequency the stage
     * reports: the low/mid pair for low_freq, the other four for high_freq,
     * each of its own kind.
     */
    ghost predicate Tuned(m: MathLib)
      reads this
      requires Lawful(m) && sampleRate != 0.0
    {
      TunedTo(m, Filters(), lowFreq, highFreq, sampleRate)
    }

    /**
     * new, as the source writes it: the parameters are clamped (drives to
     * [0, 1], levels to [0, 2], low_freq to [50, 500], high_freq to
     * [1000, 6000]) but the six crossover filters are designed from the
     * frequencies as passed, before clamping.
     */
    constructor AsWritten(m: MathLib, lowDrive: real, midDrive: real, highDrive: real,
                          lowLevel: real, midLevel: real, highLevel: real,
                          lowFreq: real, highFreq: real, sampleRate: real)
      requires Lawful(m) && sampleRate != 0.0
      ensures Valid()
      ensures this.lowDrive == Clamp(lowDrive, 0.0, 1.0) && this.midDrive == Clamp(midDrive, 0.0, 1.0)
      ensures this.highDrive == Clamp(highDrive, 0.0, 1.0)
      ensures this.lowLevel == Clamp(lowLevel, 0.0, 2.0) && this.midLevel == Clamp(midLevel, 0.0, 2.0)
      ensures this.highLevel == Clamp(highLevel, 0.0, 2.0)
      ensures this.lowFreq == Clamp(lowFreq, 50.0, 500.0) && this.highFreq == Clamp(highFreq, 1000.0, 6000.0)
      ensures this.sampleRate == sampleRate
      ensures lowLp == NewFilter(m, lowFreq, sampleRate, false)
      ensures midHpLow == NewFilter(m, lowFreq, sampleRate, true)
      ensures midLpHigh == NewFilter(m, highFreq, sampleRate, false)
      ensures highHp == NewFilter(m, highFreq, sampleRate, true)
      ensures lowAllpassLp == NewFilter(m, highFreq, sampleRate, false)
      ensures lowAllpassHp == NewFilter(m, highFreq, sampleRate, true)
    {
      lowLp := NewFilter(m, lowFreq, sampleRate, false);
      midHpLow := NewFilter(m, lowFreq, sampleRate, true);
      midLpHigh := NewFilter(m, highFreq, sampleRate, false);
      highHp := NewFilter(m, highFreq, sampleRate, true);
      lowAllpassLp := NewFilter(m, highFreq, sampleRate, false);
      lowAllpassHp := NewFilter(m, highFreq, sampleRate, true);
      lowEnv := new EnvelopeFollower.FromMs(m, BAND_ATTACK_MS, BAND_RELEASE_MS, sampleRate);
      midEnv := new EnvelopeFollower.FromMs(m, BAND_ATTACK_MS, BAND_RELEASE_MS, sampleRate);
      highEnv := new EnvelopeFollower.FromMs(m, BAND_ATTACK_MS, BAND_RELEASE_MS, sampleRate);
      lowDc := new DcBlocker(m, DC_CUTOFF_HZ, sampleRate);
      midDc := new DcBlocker(m, DC_CUTOFF_HZ, sampleRate);
      highDc := new DcBlocker(m, DC_CUTOFF_HZ, sampleRate);
      this.lowDrive := Clamp(lowDrive, 0.0, 1.0);
      this.midDrive := Clamp(midDrive, 0.0, 1.0);
      this.highDrive := Clamp(highDrive, 0.0, 1.0);
      this.lowLevel := Clamp(lowLevel, 0.0, 2.0);
      this.midLevel := Clamp(midLevel, 0.0, 2.0);
      this.highLevel := Clamp(highLevel, 0.0, 2.0);
      this.lowFreq := Clamp(lowFreq, 50.0, 500.0);
      this.highFreq := Clamp(highFreq, 1000.0, 6000.0);
      this.sampleRate := sampleRate;
    }

    /**
     * new, corrected: the same clamping, with the crossover filters
     * designed from the clamped frequencies, so the stage starts tuned to
     * the frequencies it reports.
     */
    constructor (m: MathLib, lowDrive: real, midDrive: real, highDrive: real,
                 lowLevel: real, midLevel: real, highLevel: real,
                 lowFreq: real, highFreq: real, sampleRate: real)
      requires Lawful(m) && sampleRate != 0.0
      ensures Valid() && Tuned(m)
      ensures this.lowDrive == Clamp(lowDrive, 0.0, 1.0) && this.midDrive == Clamp(midDrive, 0.0, 1.0)
      ensures this.highDrive == Clamp(highDrive, 0.0, 1.0)
      ensures this.lowLevel == Clamp(lowLevel, 0.0, 2.0) && this.midLevel == Clamp(midLevel, 0.0, 2.0)
      ensures this.highLevel == Clamp(highLevel, 0.0, 2.0)
      ensures this.lowFreq == Clamp(lowFreq, 50.0, 500.0) && this.highFreq == Clamp(highFreq, 1000.0, 6000.0)
      ensures this.sampleRate == sampleRate
      ensures forall h :: h in Histories(Filters()) ==> h == (AT_REST, AT_REST)
      ensures lowEnv.envelope == 0.0 && midEnv.envelope == 0.0 && highEnv.envelope == 0.0
      ensures forall e :: e in {lowEnv, midEnv, highEnv} ==>
        e.attackCoeff == CalculateCoefficient(m, BAND_ATTACK_MS, sampleRate)
        && e.releaseCoeff == CalculateCoefficient(m, BAND_RELEASE_MS, sampleRate)
      ensures forall d :: d in {lowDc, midDc, highDc} ==>
        d.xPrev == 0.0 && d.yPrev == 0.0 && d.coeff == m.exp(-2.0 * PI * DC_CUTOFF_HZ / sampleRate)
    {
      var lf := Clamp(lowFreq, 50.0, 500.0);
      var hf := Clamp(highFreq, 1000.0, 6000.0);
      lowLp := NewFilter(m, lf, sampleRate, false);
      midHpLow := NewFilter(m, lf, sampleRate, true);
      midLpHigh := NewFilter(m, hf, sampleRate, false);
      highHp := NewFilter(m, hf, sampleRate, true);
      lowAllpassLp := NewFilter(m, hf, sampleRate, false);
      lowAllpassHp := NewFilter(m, hf, sampleRate, true);
      lowEnv := new EnvelopeFollower.FromMs(m, BAND_ATTACK_MS, BAND_RELEASE_MS, sampleRate);
      midEnv := new EnvelopeFollower.FromMs(m, BAND_ATTACK_MS, BAND_RELEASE_MS, sampleRate);
      highEnv := new EnvelopeFollower.FromMs(m, BAND_ATTACK_MS, BAND_RELEASE_MS, sampleRate);
      lowDc := new DcBlocker(m, DC_CUTOFF_HZ, sampleRate);
      midDc := new DcBlocker(m, DC_CUTOFF_HZ, sampleRate);
      highDc := new DcBlocker(m, DC_CUTOFF_HZ, sampleRate);
      this.lowDrive := Clamp(lowDrive, 0.0, 1.0);
      this.midDrive := Clamp(midDrive, 0.0, 1.0);
      this.highDrive := Clamp(highDrive, 0.0, 1.0);
      this.lowLevel := Clamp(lowLevel, 0.0, 2.0);
      this.midLevel := Clamp(midLevel, 0.0, 2.0);
      this.highLevel := Clamp(highLevel, 0.0, 2.0);
      this.lowFreq := lf;
      this.highFreq := hf;
      this.sampleRate := sampleRate;
    }

    /** update_crossover_frequencies: all six filters re-designed for the stored frequencies; their histories are kept. */
    method UpdateCrossoverFrequencies(m: MathLib)
      requires Lawful(m) && sampleRate != 0.0
      modifies this`lowLp, this`midHpLow, this`midLpHigh, this`highHp, this`lowAllpassLp, this`lowAllpassHp
      ensures Filters() == Retune(old(Filters()), m, lowFreq, highFreq, sampleRate)
      ensures Tuned(m)
      ensures old(Valid()) ==> Valid()
    {
      var g := Retune(Filters(), m, lowFreq, highFreq, sampleRate);
      lowLp, midHpLow, midLpHigh, highHp, lowAllpassLp, lowAllpassHp := g.0, g.1, g.2, g.3, g.4, g.5;
    }

    /**
     * The band split of process: low/high-side at low_freq, mid/high from
     * the high side at high_freq, and the low band through the allpass
     * (lowpass plus highpass at high_freq).
     */
    function Split(input: real): (r: (Bands, LR4Filter, LR4Filter, LR4Filter, LR4Filter, LR4Filter, LR4Filter))
      reads this
    {
      var (lowLp1, lowRaw) := FilterStep(lowLp, input);
      var (midHpLow1, highSide) := FilterStep(midHpLow, input);
      var (midLpHigh1, mid) := FilterStep(midLpHigh, highSide);
      var (highHp1, high) := FilterStep(highHp, highSide);
      var (apLp1, lowA) := FilterStep(lowAllpassLp, lowRaw);
      var (apHp1, lowB) := FilterStep(lowAllpassHp, lowRaw);
      (Bands(lowA + lowB, mid, high), lowLp1, midHpLow1, midLpHigh1, highHp1, apLp1, apHp1)
    }

    /**
     * process: split into bands, follow each band's envelope, saturate each
     * band against its new envelope, DC-block it, and sum the bands scaled
     * by their levels. Each saturated band (what its blocker last took in)
     * stays below 1 + env/2.
     */
    method Process(input: real) returns (output: real)
      requires Valid()
      modifies this`lowLp, this`midHpLow, this`midLpHigh, this`highHp, this`lowAllpassLp, this`lowAllpassHp
      modifies lowEnv`envelope, midEnv`envelope, highEnv`envelope
      modifies lowDc`xPrev, lowDc`yPrev, midDc`xPrev, midDc`yPrev, highDc`xPrev, highDc`yPrev
      ensures Valid()
      ensures var r := old(Split(input));
        && (lowLp, midHpLow, midLpHigh, highHp, lowAllpassLp, lowAllpassHp) == (r.1, r.2, r.3, r.4, r.5, r.6)
        && lowEnv.envelope == EnvelopeStep(old(lowEnv.envelope), lowEnv.attackCoeff, lowEnv.releaseCoeff, r.0.low)
        && midEnv.envelope == EnvelopeStep(old(midEnv.envelope), midEnv.attackCoeff, midEnv.releaseCoeff, r.0.mid)
        && highEnv.envelope == EnvelopeStep(old(highEnv.envelope), highEnv.attackCoeff, highEnv.releaseCoeff, r.0.high)
        && lowDc.xPrev == BandSaturate(r.0.low, lowEnv.envelope, lowDrive)
        && midDc.xPrev == BandSaturate(r.0.mid, midEnv.envelope, midDrive)
        && highDc.xPrev == BandSaturate(r.0.high, highEnv.envelope, highDrive)
      ensures [lowDc.yPrev] == DcBlockRun(lowDc.coeff, old(lowDc.xPrev), old(lowDc.yPrev), [lowDc.xPrev])
      ensures [midDc.yPrev] == DcBlockRun(midDc.coeff, old(midDc.xPrev), old(midDc.yPrev), [midDc.xPrev])
      ensures [highDc.yPrev] == DcBlockRun(highDc.coeff, old(highDc.xPrev), old(highDc.yPrev), [highDc.xPrev])
      ensures output == MixBands(Bands(lowDc.yPrev, midDc.yPrev, highDc.yPrev), lowLevel, midLevel, highLevel)
      ensures Abs(lowDc.xPrev) < 1.0 + Max(lowEnv.envelope, 0.0) * 0.5
      ensures Abs(midDc.xPrev) < 1.0 + Max(midEnv.envelope, 0.0) * 0.5
      ensures Abs(highDc.xPrev) < 1.0 + Max(highEnv.envelope, 0.0) * 0.5
    {
      ghost var r := Split(input);
      var lowRaw, highSide, mid, high, lowA, lowB;
      lowLp, lowRaw := FilterStep(lowLp, input).0, FilterStep(lowLp, input).1;
      midHpLow, highSide := FilterStep(midHpLow, input).0, FilterStep(midHpLow, input).1;
      midLpHigh, mid := FilterStep(midLpHigh, highSide).0, FilterStep(midLpHigh, highSide).1;
      highHp, high := FilterStep(highHp, highSide).0, FilterStep(highHp, highSide).1;
      lowAllpassLp, lowA := FilterStep(lowAllpassLp, lowRaw).0, FilterStep(lowAllpassLp, lowRaw).1;
      lowAllpassHp, lowB := FilterStep(lowAllpassHp, lowRaw).0, FilterStep(lowAllpassHp, lowRaw).1;
      var low := lowA + lowB;
      assert Bands(low, mid, high) == r.0;

      var lowE := lowEnv.Process(low);
      var midE := midEnv.Process(mid);
      var highE := highEnv.Process(high);

      var lowSat := BandSaturate(low, lowE, lowDrive);
      var midSat := BandSaturate(mid, midE, midDrive);
      var highSat := BandSaturate(high, highE, highDrive);
      BandSaturateBounded(low, lowE, lowDrive);
      BandSaturateBounded(mid, midE, midDrive);
      BandSaturateBounded(high, highE, highDrive);

      var lowClean := lowDc.Process(lowSat);
      var midClean := midDc.Process(midSat);
      var highClean := highDc.Process(highSat);

      output := MixBands(Bands(lowClean, midClean, highClean), lowLevel, midLevel, highLevel);
    }

    /**
     * set_parameter: drives in [0, 1], levels in [0, 2], low_freq in
     * [50, 500] Hz and high_freq in [1000, 6000] Hz; a frequency change
     * re-designs all six crossover filters. A rejected value or an unknown
     * name is an error and changes nothing; an accepted one changes only
     * its own parameter.
     */
    method SetParameter(m: MathLib, name: string, value: real) returns (r: Result<Unit>)
      requires Lawful(m) && sampleRate != 0.0
      modifies this`lowDrive, this`midDrive, this`highDrive, this`lowLevel, this`midLevel, this`highLevel,
        this`lowFreq, this`highFreq,
        this`lowLp, this`midHpLow, this`midLpHigh, this`highHp, this`lowAllpassLp, this`lowAllpassHp
      ensures ParseParam(name).None? ==> r == Err("Unknown parameter")
      ensures r.Ok? <==> ParseParam(name).Some? && Accepts(ParseParam(name).value, value)
      ensures r.Ok? ==> Params() == WithParameter(old(Params()), ParseParam(name).value, value)
      ensures r.Err? ==> Params() == old(Params()) && Filters() == old(Filters())
      ensures r.Ok? && IsCrossover(ParseParam(name).value) ==>
        Filters() == Retune(old(Filters()), m, lowFreq, highFreq, sampleRate)
      ensures r.Ok? && !IsCrossover(ParseParam(name).value) ==> Filters() == old(Filters())
    {
      var p := ParseParam(name);
      if p.None? {
        r := Err("Unknown parameter");
      } else if p.value == LowFreq {
        r := SetLowFreq(m, value);
      } else if p.value == HighFreq {
        r := SetHighFreq(m, value);
      } else {
        r := SetBandParameter(p.value, value);
      }
    }

    /** The drive and level arms of set_parameter: they change one stored value and no filter. */
    method SetBandParameter(p: Param, value: real) returns (r: Result<Unit>)
      requires !IsCrossover(p)
      modifies this`lowDrive, this`midDrive, this`highDrive, this`lowLevel, this`midLevel, this`highLevel
      ensures r.Ok? <==> Accepts(p, value)
      ensures r.Ok? ==> Params() == WithParameter(old(Params()), p, value)
      ensures r.Err? ==> Params() == old(Params())
    {
      match p {
        case LowDrive =>
          if 0.0 <= value <= 1.0 { lowDrive := value; r := Ok(Unit); }
          else { r := Err("Low drive must be 0.0-1.0"); }
        case MidDrive =>
          if 0.0 <= value <= 1.0 { midDrive := value; r := Ok(Unit); }
          else { r := Err("Mid drive must be 0.0-1.0"); }
        case HighDrive =>
          if 0.0 <= value <= 1.0 { highDrive := value; r := Ok(Unit); }
          else { r := Err("High drive must be 0.0-1.0"); }
        case LowLevel =>
          if 0.0 <= value <= 2.0 { lowLevel := value; r := Ok(Unit); }
          else { r := Err("Low level must be 0.0-2.0"); }
        case MidLevel =>
          if 0.0 <= value <= 2.0 { midLevel := value; r := Ok(Unit); }
          else { r := Err("Mid level must be 0.0-2.0"); }
        case HighLevel =>
          if 0.0 <= value <= 2.0 { highLevel := value; r := Ok(Unit); }
          else { r := Err("High level must be 0.0-2.0"); }
      }
    }

    /** The low_freq arm of set_parameter: an accepted frequency is stored and all six filters are redesigned. */
    method SetLowFreq(m: MathLib, value: real) returns (r: Result<Unit>)
      requires Lawful(m) && sampleRate != 0.0
      modifies this`lowFreq,
        this`lowLp, this`midHpLow, this`midLpHigh, this`highHp, this`lowAllpassLp, this`lowAllpassHp
      ensures r.Ok? <==> 50.0 <= value <= 500.0
      ensures r.Ok? ==> Params() == WithParameter(old(Params()), LowFreq, value)
      ensures r.Ok? ==> Filters() == Retune(old(Filters()), m, lowFreq, highFreq, sampleRate)
      ensures r.Err? ==> Params() == old(Params()) && Filters() == old(Filters())
    {
      if 50.0 <= value <= 500.0 {
        lowFreq := value;
        UpdateCrossoverFrequencies(m);
        r := Ok(Unit);
      } else {
        r := Err("Low freq must be 50-500 Hz");
      }
    }

    /** The high_freq arm of set_parameter, like SetLowFreq for the upper crossover. */
    method SetHighFreq(m: MathLib, value: real) returns (r: Result<Unit>)
      requires Lawful(m) && sampleRate != 0.0
      modifies this`highFreq,
        this`lowLp, this`midHpLow, this`midLpHigh, this`highHp, this`lowAllpassLp, this`lowAllpassHp
      ensures r.Ok? <==> 1000.0 <= value <= 6000.0
      ensures r.Ok? ==> Params() == WithParameter(old(Params()), HighFreq, value)
      ensures r.Ok? ==> Filters() == Retune(old(Filters()), m, lowFreq, highFreq, sampleRate)
      ensures r.Err? ==> Params() == old(Params()) && Filters() == old(Filters())
    {
      if 1000.0 <= value <= 6000.0 {
        highFreq := value;
        UpdateCrossoverFrequencies(m);
        r := Ok(Unit);
      } else {
        r := Err("High freq must be 1000-6000 Hz");
      }
    }

    /** The eight parameters as a value. */
    function Params(): Settings
      reads this
    {
      MakeSettings(lowDrive, midDrive, highDrive, lowLevel, midLevel, highLevel, lowFreq, highFreq)
    }

    /** The six crossover filters as a value. */
    function Filters(): Crossovers
      reads this
    {
      (lowLp, midHpLow, midLpHigh, highHp, lowAllpassLp, lowAllpassHp)
    }

    /** get_parameter: the stored value of each of the eight parameters. */
    function GetParameter(name: string): (r: Result<real>)
      reads this
      ensures r == ParameterOf(Params(), name)
    {
      ParameterOf(Params(), name)
    }
  }

  /**
   * The constructor as written, on a low_freq below its range: the stage
   * reports the clamped 50 Hz while its low/mid filters are designed for
   * the 10 Hz that was passed, so it is not tuned to what it reports until
   * a frequency is next set.
   */
  method UnclampedCrossover(m: MathLib) returns (s: MultibandSaturatorStage)
    requires Lawful(m)
    ensures s.GetParameter("low_freq") == Ok(50.0)
    ensures s.lowLp.coeffs == Design(m, 10.0, 48000.0, false)
    ensures s.midHpLow.coeffs == Design(m, 10.0, 48000.0, true)
  {
    s := new MultibandSaturatorStage.AsWritten(m, 0.5, 0.5, 0.5, 1.0, 1.0, 1.0, 10.0, 2000.0, 48000.0);
  }

  /** The corrected constructor on the same arguments designs the low/mid filters for the 50 Hz it reports. */
  method ClampedCrossover(m: MathLib) returns (s: MultibandSaturatorStage)
    requires Lawful(m)
    ensures s.GetParameter("low_freq") == Ok(50.0)
    ensures s.lowLp.coeffs == Design(m, 50.0, 48000.0, false)
    ensures s.midHpLow.coeffs == Design(m, 50.0, 48000.0, true)
  {
    s := new MultibandSaturatorStage(m, 0.5, 0.5, 0.5, 1.0, 1.0, 1.0, 10.0, 2000.0, 48000.0);
  }
}

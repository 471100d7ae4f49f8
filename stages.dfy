/*
 * The GUI's stage configurations (src/gui/stages/mod.rs): the kinds of
 * stage a user can add, the configuration each kind starts from, and how a
 * per-kind message edits a configuration. Each kind's own config struct and
 * message enum live in that kind's file; here a configuration is the kind
 * with its named settings, and a message names the setting it changes.
 */
module Stages {

  datatype StageType = Filter | Preamp | Compressor | ToneStack | PowerAmp | Level | NoiseGate | MultibandSaturator

  /** `#[default]` on `StageType`. */
  const DEFAULT_STAGE_TYPE: StageType := Filter

  /** A setting is a number or one of a fixed set of choices (filter type, clipper, model). */
  datatype Setting = Number(value: real) | Choice(name: string)

  datatype StageConfig = StageConfig(kind: StageType, settings: map<string, Setting>)

  /** A message of one kind: `XChanged(v)` sets the setting `x` to `v`. */
  datatype StageMessage = StageMessage(kind: StageType, setting: string, value: Setting)

  /** The `Default` of each kind's config. */
  function DefaultSettings(kind: StageType): map<string, Setting> {
    match kind
    case Filter => map["filter_type" := Choice("Highpass"), "cutoff_hz" := Number(100.0)]
    case Preamp => map["gain" := Number(5.0), "bias" := Number(0.0), "clipper_type" := Choice("Soft")]
    case Compressor =>
      map["attack_ms" := Number(1.0), "release_ms" := Number(100.0), "threshold_db" := Number(-20.0),
          "ratio" := Number(4.0), "makeup_db" := Number(0.0)]
    case ToneStack =>
      map["model" := Choice("Modern"), "bass" := Number(0.5), "mid" := Number(0.5),
          "treble" := Number(0.5), "presence" := Number(0.5)]
    case PowerAmp => map["drive" := Number(0.5), "amp_type" := Choice("ClassAB"), "sag" := Number(0.3)]
    case Level => map["gain" := Number(1.0)]
    case NoiseGate =>
      map["threshold_db" := Number(-40.0), "ratio" := Number(10.0), "attack_ms" := Number(1.0),
          "hold_ms" := Number(10.0), "release_ms" := Number(100.0)]
    case MultibandSaturator =>
      map["low_drive" := Number(0.3), "mid_drive" := Number(0.5), "high_drive" := Number(0.4),
          "low_level" := Number(1.0), "mid_level" := Number(1.0), "high_level" := Number(1.0),
          "low_freq" := Number(200.0), "high_freq" := Number(2500.0)]
  }

  /** `From<StageType> for StageConfig`: the config variant of the same kind, at its defaults. */
  function FromKind(kind: StageType): (c: StageConfig)
    ensures c.kind == kind
    ensures c.settings == DefaultSettings(kind)
  {
    StageConfig(kind, DefaultSettings(kind))
  }

  /** Distinct kinds start from distinct configurations. */
  lemma FromKindInjective(a: StageType, b: StageType)
    requires FromKind(a) == FromKind(b)
    ensures a == b
  {
  }

  /** The default kind starts with a 100 Hz high-pass filter. */
  lemma DefaultIsHighpassFilter()
    ensures FromKind(DEFAULT_STAGE_TYPE).kind == Filter
    ensures FromKind(DEFAULT_STAGE_TYPE).settings["filter_type"] == Choice("Highpass")
    ensures FromKind(DEFAULT_STAGE_TYPE).settings["cutoff_hz"] == Number(100.0)
  {
  }

  /**
   * `StageConfig::apply`: a message of the config's own kind sets its setting
   * and reports true; a message of any other kind changes nothing and reports
   * false.
   */
  function Apply(config: StageConfig, msg: StageMessage): (r: (bool, StageConfig))
    ensures r.0 <==> config.kind == msg.kind
    ensures r.1.kind == config.kind
    ensures !r.0 ==> r.1 == config
    ensures r.0 ==> r.1.settings == config.settings[msg.setting := msg.value]
    ensures msg.setting in config.settings ==> r.1.settings.Keys == config.settings.Keys
  {
    if config.kind == msg.kind then (true, StageConfig(config.kind, config.settings[msg.setting := msg.value]))
    else (false, config)
  }

  /** A second identical message changes nothing more: applying is idempotent. */
  lemma ApplyIdempotent(config: StageConfig, msg: StageMessage)
    ensures Apply(Apply(config, msg).1, msg).1 == Apply(config, msg).1
  {
  }

  /** Messages to different settings commute. */
  lemma ApplyCommutes(config: StageConfig, a: StageMessage, b: StageMessage)
    requires a.setting != b.setting
    ensures Apply(Apply(config, a).1, b).1 == Apply(Apply(config, b).1, a).1
  {
  }
}

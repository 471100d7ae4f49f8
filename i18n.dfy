/*
 * The interface language (src/i18n/mod.rs): a language is stored as a byte
 * in one global cell, read back with every byte other than 1 meaning
 * English, and selects the table of label strings the GUI shows. Only the
 * first labels of each table are written out here.
 */
module I18n {

  newtype u8 = x: int | 0 <= x < 256

  datatype Language = English | ZhCn

  /** `#[default]` on `Language`. */
  const DEFAULT_LANGUAGE: Language := English

  /** `LANGUAGES`: the languages offered, in menu order. */
  const LANGUAGES: seq<Language> := [English, ZhCn]

  /** `Language::to_u8`. */
  function ToU8(lang: Language): (v: u8)
    ensures v == 0 <==> lang == English
    ensures v == 1 <==> lang == ZhCn
  {
    match lang
    case English => 0
    case ZhCn => 1
  }

  /** `Language::from_u8`: 1 is Chinese, anything else English. */
  function FromU8(v: u8): (lang: Language)
    ensures lang == ZhCn <==> v == 1
  {
    if v == 1 then ZhCn else English
  }

  /** Storing a language and reading it back gives the same language. */
  lemma RoundTrip(lang: Language)
    ensures FromU8(ToU8(lang)) == lang
  {
  }

  /** Every byte that is not 1, including ones never stored, reads as English. */
  lemma OtherBytesAreEnglish(v: u8)
    requires v != 1
    ensures FromU8(v) == English
  {
  }

  /** Every language is offered exactly once. */
  lemma LanguagesListed(lang: Language)
    ensures lang in LANGUAGES
    ensures forall i, j :: 0 <= i < j < |LANGUAGES| ==> LANGUAGES[i] != LANGUAGES[j]
  {
  }

  /** `Display for Language`: each language under its own name. */
  function DisplayName(lang: Language): string {
    match lang
    case English => "English"
    case ZhCn => "\U{4E2D}\U{6587}\U{FF08}\U{7B80}\U{4F53}\U{FF09}"
  }

  /** The table of label strings; the remaining fields follow the same pattern. */
  datatype Translations = Translations(midi: string, tuner: string, settings: string, audioSettings: string)

  const EN: Translations := Translations("Midi", "Tuner", "Settings", "Audio Settings")

  const ZH_CN: Translations := Translations(
    "MIDI",
    "\U{8C03}\U{97F3}\U{5668}",
    "\U{8BBE}\U{7F6E}",
    "\U{97F3}\U{9891}\U{8BBE}\U{7F6E}")

  /** `Translations::for_language`. */
  function ForLanguage(lang: Language): (t: Translations)
    ensures lang == English ==> t == EN
    ensures lang == ZhCn ==> t == ZH_CN
  {
    match lang
    case English => EN
    case ZhCn => ZH_CN
  }

  /** Different languages show different labels, so switching language is visible. */
  lemma TablesDiffer(a: Language, b: Language)
    requires a != b
    ensures ForLanguage(a) != ForLanguage(b) && DisplayName(a) != DisplayName(b)
  {
    assert EN.midi[1] != ZH_CN.midi[1];
    assert DisplayName(English)[0] != DisplayName(ZhCn)[0];
  }

  /** The `CURRENT_LANGUAGE` cell, starting at 0 (English). */
  class LanguageCell {
    var current: u8

    constructor ()
      ensures current == 0
    {
      current := 0;
    }

    /** `set_language`. */
    method SetLanguage(lang: Language)
      modifies this
      ensures current == ToU8(lang)
    {
      current := ToU8(lang);
    }

    /** `get_language`. */
    method GetLanguage() returns (lang: Language)
      ensures lang == FromU8(current)
    {
      lang := FromU8(current);
    }

    /** `translations()`: the table of the current language. */
    method CurrentTranslations() returns (t: Translations)
      ensures t == ForLanguage(FromU8(current))
    {
      var lang := GetLanguage();
      t := ForLanguage(lang);
    }
  }

  /** Without concurrent writers, reading after setting gives the language set; a fresh cell reads English. */
  method SetThenGet(cell: LanguageCell, lang: Language) returns (read: Language, labels: Translations)
    modifies cell
    ensures read == lang && labels == ForLanguage(lang)
  {
    cell.SetLanguage(lang);
    read := cell.GetLanguage();
    RoundTrip(lang);
    labels := cell.CurrentTranslations();
  }

  method FreshCellIsEnglish() returns (lang: Language)
    ensures lang == DEFAULT_LANGUAGE
  {
    var cell := new LanguageCell();
    lang := cell.GetLanguage();
  }
}

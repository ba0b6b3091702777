/**
  Start-up language choice: the language code of the system locale when the
  translation table has it, English otherwise.
 */
module Language {
  import opened Wrappers

  /** The language codes that have a translation table. */
  const TranslationCodes: set<string> := {"en"}

  const DefaultLanguage: string := "en"

  /** `locale.split('_')[0]`: the text before the first underscore, or all of it. */
  function LangCode(locale: string): string {
    if locale == [] || locale[0] == '_' then [] else [locale[0]] + LangCode(locale[1..])
  }

  /** The language code is the first underscore-separated field of the locale. */
  lemma {:induction false} LangCodeIsFirstField(locale: string)
    ensures |LangCode(locale)| <= |locale|
    ensures LangCode(locale) == locale[..|LangCode(locale)|]
    ensures '_' !in LangCode(locale)
    ensures |LangCode(locale)| == |locale| || locale[|LangCode(locale)|] == '_'
  {
    if locale != [] && locale[0] != '_' {
      LangCodeIsFirstField(locale[1..]);
    }
  }

  /** Those three properties single the language code out: nothing else has them. */
  lemma {:induction false} FirstFieldIsLangCode(locale: string, code: string)
    requires |code| <= |locale| && code == locale[..|code|]
    requires '_' !in code
    requires |code| == |locale| || locale[|code|] == '_'
    ensures code == LangCode(locale)
  {
    if code != [] {
      assert code[0] == locale[0];
      assert code[1..] == locale[1..][..|code| - 1];
      FirstFieldIsLangCode(locale[1..], code[1..]);
    }
  }

  /**
    The language chosen at start-up from the default locale's language part
    (None when the system reports none).
   */
  function DetectLanguage(locale: Option<string>): (r: string)
    ensures r in TranslationCodes
    ensures locale.Some? && LangCode(locale.value) in TranslationCodes ==> r == LangCode(locale.value)
    ensures locale.None? || LangCode(locale.value) !in TranslationCodes ==> r == DefaultLanguage
  {
    match locale
    case Some(lang) =>
      var code := LangCode(lang);
      if code in TranslationCodes then code else DefaultLanguage
    case None => DefaultLanguage
  }

  /** With English the only translation, every locale starts the program in English. */
  lemma AlwaysEnglish(locale: Option<string>)
    ensures DetectLanguage(locale) == "en"
  {
  }
}

/** The language context of src/lib/language-context.tsx. */
module LanguageContext {
  import opened Common

  datatype Language = Fi | En | Ar | Ru | Sv

  /** The code stored under the `language` key. */
  function Code(l: Language): string
  {
    match l
    case Fi => "fi"
    case En => "en"
    case Ar => "ar"
    case Ru => "ru"
    case Sv => "sv"
  }

  /** The saved-language check: only the five codes are adopted. */
  function ParseLanguage(saved: Option<string>): (r: Option<Language>)
    ensures r.Some? ==> saved == Some(Code(r.value))
    ensures r.None? ==> forall l :: saved != Some(Code(l))
  {
    if saved == Some("fi") then Some(Fi)
    else if saved == Some("en") then Some(En)
    else if saved == Some("ar") then Some(Ar)
    else if saved == Some("ru") then Some(Ru)
    else if saved == Some("sv") then Some(Sv)
    else None
  }

  /** Every code is read back as its own language. */
  lemma CodeRoundTrip(l: Language)
    ensures ParseLanguage(Some(Code(l))) == Some(l)
  {
  }

  /** `t(fiText, enText, arText, ruText, svText)`: the current language's text when it is
      given and non-empty, the Finnish text in every other case. */
  function Translate(language: Language, fi: string, en: Option<string>, ar: Option<string>,
                     ru: Option<string>, sv: Option<string>): (r: string)
    ensures language == En && StrTruthy(en) ==> r == en.value
    ensures language == Ar && StrTruthy(ar) ==> r == ar.value
    ensures language == Ru && StrTruthy(ru) ==> r == ru.value
    ensures language == Sv && StrTruthy(sv) ==> r == sv.value
    ensures (!(language == En && StrTruthy(en)) && !(language == Ar && StrTruthy(ar))
      && !(language == Ru && StrTruthy(ru)) && !(language == Sv && StrTruthy(sv))) ==> r == fi
  {
    if language == En && StrTruthy(en) then en.value
    else if language == Ar && StrTruthy(ar) then ar.value
    else if language == Ru && StrTruthy(ru) then ru.value
    else if language == Sv && StrTruthy(sv) then sv.value
    else fi
  }

  /** The provider's state and the browser storage it persists to. */
  class LanguageProvider {
    var language: Language
    var storage: map<string, string>

    /** The provider starts in Finnish. */
    constructor (storage: map<string, string>)
      ensures language == Fi && this.storage == storage
    {
      language := Fi;
      this.storage := storage;
    }

    /** The mount effect: adopt a valid saved language, keep the current one otherwise. */
    method LoadSaved()
      modifies this`language
      ensures var saved := if "language" in storage then Some(storage["language"]) else None;
        language == (if ParseLanguage(saved).Some? then ParseLanguage(saved).value else old(language))
    {
      var saved := if "language" in storage then Some(storage["language"]) else None;
      var parsed := ParseLanguage(saved);
      if parsed.Some? {
        language := parsed.value;
      }
    }

    /** `setLanguage`: update the state and persist the same code. */
    method SetLanguage(l: Language)
      modifies this
      ensures language == l
      ensures storage == old(storage)["language" := Code(l)]
    {
      language := l;
      storage := storage["language" := Code(l)];
    }
  }

  /** A language chosen in one session is the language of the next one. */
  method PersistAcrossReload(first: LanguageProvider, l: Language) returns (second: LanguageProvider)
    modifies first
    ensures fresh(second) && second.language == l
  {
    first.SetLanguage(l);
    second := new LanguageProvider(first.storage);
    CodeRoundTrip(l);
    second.LoadSaved();
  }
}

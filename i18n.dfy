/** The two supported locales (i18n.ts) and the request configuration that
    rejects any other locale before its messages are loaded. */
module I18n {
  import opened Wrappers

  const Locales: seq<string> := ["ar", "en"]

  const DefaultLocale: string := "ar"

  /** `isValidLocale`: membership in the locale list. */
  predicate IsValidLocale(locale: string)
  {
    locale in Locales
  }

  /** Exactly "ar" and "en" are valid, and the default is one of them. */
  lemma ValidLocalesAreArAndEn(locale: string)
    ensures IsValidLocale(locale) <==> locale == "ar" || locale == "en"
    ensures IsValidLocale(DefaultLocale)
  {
  }

  /** A locale once validated, as the components receive it. */
  datatype Locale = Ar | En {
    function Code(): (c: string)
      ensures IsValidLocale(c)
    {
      match this
      case Ar => "ar"
      case En => "en"
    }
  }

  /** The validated locale named by a code, if the code is valid. */
  function ParseLocale(code: string): (r: Option<Locale>)
    ensures r.Some? <==> IsValidLocale(code)
    ensures r.Some? ==> r.value.Code() == code
  {
    if code == "ar" then Some(Ar)
    else if code == "en" then Some(En)
    else None
  }

  /** What `getRequestConfig` produces: `notFound()` for an invalid locale,
      otherwise the messages module `./messages/<locale>.json`. */
  datatype RequestConfig = NotFound | Messages(module_path: string)

  function GetRequestConfig(locale: string): (r: RequestConfig)
    ensures r.NotFound? <==> !IsValidLocale(locale)
    ensures r.Messages? ==> r.module_path == "./messages/" + locale + ".json"
  {
    if !IsValidLocale(locale) then NotFound
    else Messages("./messages/" + locale + ".json")
  }

  /** Only two message modules can ever be requested. */
  lemma {:induction false} OnlyTwoMessageModules(locale: string)
    requires GetRequestConfig(locale).Messages?
    ensures GetRequestConfig(locale).module_path in {"./messages/ar.json", "./messages/en.json"}
  {
    ValidLocalesAreArAndEn(locale);
    assert "./messages/" + "ar" + ".json" == "./messages/ar.json";
    assert "./messages/" + "en" + ".json" == "./messages/en.json";
  }
}

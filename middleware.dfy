/** The locale-routing middleware (middleware.ts): a request path that already
    carries a locale passes through; any other path is redirected to a
    locale-prefixed one, the locale coming from the Accept-Language header. */
module Middleware {
  import opened Wrappers
  import opened Strings
  import I18n

  /** The middleware's own locale list and default, equal to those of i18n.ts. */
  const Locales: seq<string> := I18n.Locales
  const DefaultLocale: string := I18n.DefaultLocale

  /** `pathnameHasLocale`: the path is "/ar" or "/en", or starts with "/ar/" or "/en/". */
  predicate HasLocale(path: string)
  {
    exists l | l in Locales :: StartsWith(path, "/" + l + "/") || path == "/" + l
  }

  lemma InLocales(l: string)
    ensures l in Locales <==> l == "ar" || l == "en"
  {
  }

  lemma HasLocaleCases(path: string)
    ensures HasLocale(path) <==>
      path == "/ar" || path == "/en" || StartsWith(path, "/ar/") || StartsWith(path, "/en/")
  {
    assert "/" + "ar" + "/" == "/ar/" && "/" + "en" + "/" == "/en/";
    assert "/" + "ar" == "/ar" && "/" + "en" == "/en";
    if HasLocale(path) {
      var l :| l in Locales && (StartsWith(path, "/" + l + "/") || path == "/" + l);
      InLocales(l);
    } else {
      assert "ar" in Locales && "en" in Locales;
    }
  }

  /** The locale taken from the header: the first comma-separated item, cut at
      its first '-', when that is a non-empty supported locale; "ar" otherwise. */
  function PreferredLocale(acceptLanguage: Option<string>): (r: string)
    ensures I18n.IsValidLocale(r)
    ensures acceptLanguage.None? ==> r == DefaultLocale
  {
    var candidate :=
      match acceptLanguage
      case None => ""
      case Some(h) => FirstField(FirstField(h, ','), '-');
    var locale := if candidate != "" then candidate else DefaultLocale;
    if locale in Locales then locale else DefaultLocale
  }

  /** The chosen locale is the header's primary language tag when that tag is a
      supported locale, and "ar" in every other case. */
  lemma {:induction false} PreferredLocaleChoice(header: string)
    ensures var tag := FirstField(FirstField(header, ','), '-');
      PreferredLocale(Some(header)) == if tag in Locales then tag else DefaultLocale
  {
  }

  /** The text before the first separator, when the separator follows `p`. */
  lemma {:induction false} FirstFieldBefore(p: string, sep: char, rest: string)
    requires sep !in p
    ensures FirstField(p + [sep] + rest, sep) == p
    decreases |p|
  {
    if |p| > 0 {
      assert (p + [sep] + rest)[1..] == p[1..] + [sep] + rest;
      FirstFieldBefore(p[1..], sep, rest);
      assert [p[0]] + p[1..] == p;
    }
  }

  /** A header whose first item `tag` + "-" + `region` is followed by more
      items selects `tag` when it is supported and "ar" otherwise. */
  lemma {:induction false} TagBeforeRegion(header: string, item: string, more: string, tag: string, region: string)
    requires header == item + [','] + more && ',' !in item
    requires item == tag + ['-'] + region && '-' !in tag
    ensures PreferredLocale(Some(header)) == if tag in Locales then tag else DefaultLocale
  {
    FirstFieldBefore(item, ',', more);
    FirstFieldBefore(tag, '-', region);
    PreferredLocaleChoice(header);
  }

  /** "en-US,en;q=0.9" selects English; "fr-FR,fr" falls back to Arabic. */
  lemma PreferredLocaleExamples(english: string, french: string)
    requires english == "en-US,en;q=0.9" && french == "fr-FR,fr"
    ensures PreferredLocale(Some(english)) == "en"
    ensures PreferredLocale(Some(french)) == "ar"
  {
    TagBeforeRegion(english, "en-US", "en;q=0.9", "en", "US");
    InLocales("en");
    TagBeforeRegion(french, "fr-FR", "fr", "fr", "FR");
    InLocales("fr");
  }

  /** `getLocalizedRedirect`: null (None) when the path starts with "/ar" or
      "/en" as a plain prefix, otherwise the locale-prefixed path. */
  function GetLocalizedRedirect(path: string, locale: string): (r: Option<string>)
    ensures r.None? <==> (StartsWith(path, "/ar") || StartsWith(path, "/en"))
    ensures r.Some? ==> r.value == "/" + locale + path
  {
    assert "/" + "ar" == "/ar" && "/" + "en" == "/en";
    assert "ar" in Locales && "en" in Locales;
    if exists l | l in Locales :: StartsWith(path, "/" + l) then
      assert forall l :: l in Locales ==> l == "ar" || l == "en";
      None
    else Some("/" + locale + path)
  }

  /** The middleware's answer: let the request through, or redirect it to a
      path on the same origin. */
  datatype Response = Next | Redirect(path: string)

  /** What `new URL(r, request.url)` makes of a relative reference `r` (one
      without a leading '/'): `r` replaces the last segment of the request
      path. The request path always starts with '/'. */
  function ResolveRelative(requestPath: string, reference: string): string
  {
    LastSegmentDirectory(requestPath) + reference
  }

  /** The request path up to and including its last '/'. */
  function LastSegmentDirectory(path: string): (r: string)
    ensures |r| <= |path|
    ensures r == path[..|r|]
    decreases |path|
  {
    if |path| == 0 then ""
    else if path[|path| - 1] == '/' then path
    else LastSegmentDirectory(path[..|path| - 1])
  }

  /** The middleware as written: when `getLocalizedRedirect` answers null, the
      null is handed to `new URL`, which reads it as the relative reference
      "null". */
  function MiddlewareAsWritten(path: string, acceptLanguage: Option<string>): Response
  {
    if HasLocale(path) then Next
    else
      match GetLocalizedRedirect(path, PreferredLocale(acceptLanguage))
      case Some(target) => Redirect(target)
      case None => Redirect(ResolveRelative(path, "null"))
  }

  /** A path such as "/english" starts with "/en" but carries no locale: the
      middleware as written sends it to "/null". */
  lemma {:induction false} EnglishRedirectsToNull()
    ensures !HasLocale("/english")
    ensures GetLocalizedRedirect("/english", "ar").None?
    ensures MiddlewareAsWritten("/english", None) == Redirect("/null")
  {
    HasLocaleCases("/english");
    assert !StartsWith("/english", "/ar/") && !StartsWith("/english", "/en/") by {
      assert "/english"[..4] == "/eng";
    }
    assert StartsWith("/english", "/en") by {
      assert "/english"[..3] == "/en";
    }
    assert '/' !in "/english"[1..] by {
      forall i | 0 <= i < |"/english"[1..]| ensures "/english"[1..][i] != '/' { }
    }
    SingleSegmentDirectory("/english");
  }

  /** A path with one segment resolves relative references against "/". */
  lemma {:induction false} SingleSegmentDirectory(path: string)
    requires |path| > 0 && path[0] == '/' && '/' !in path[1..]
    ensures LastSegmentDirectory(path) == "/"
    decreases |path|
  {
    if |path| > 1 {
      var shorter := path[..|path| - 1];
      assert path[|path| - 1] == path[1..][|path| - 2];
      assert shorter[1..] == path[1..][..|path| - 2];
      SingleSegmentDirectory(shorter);
    } else {
      assert path == "/";
    }
  }

  /** Every path that starts with "/ar" or "/en" but is neither "/ar", "/en"
      nor below "/ar/" or "/en/" is redirected, as written, to a path ending
      in "null" instead of a localized one. */
  lemma {:induction false} AsWrittenRedirectsToNull(path: string, header: Option<string>)
    requires StartsWith(path, "/ar") || StartsWith(path, "/en")
    requires !HasLocale(path)
    ensures MiddlewareAsWritten(path, header) == Redirect(LastSegmentDirectory(path) + "null")
  {
  }

  /** The middleware with the evidently intended redirect: every path without
      a locale is sent to the locale-prefixed path. */
  function Middleware(path: string, acceptLanguage: Option<string>): (r: Response)
    ensures HasLocale(path) <==> r.Next?
    ensures r.Redirect? ==> r.path == "/" + PreferredLocale(acceptLanguage) + path
  {
    if HasLocale(path) then Next
    else Redirect("/" + PreferredLocale(acceptLanguage) + path)
  }

  /** The corrected redirect always lands on a path that the middleware then
      lets through, so no request is redirected twice. */
  lemma {:induction false} RedirectTargetPasses(path: string, header: Option<string>, header2: Option<string>)
    requires StartsWith(path, "/")
    requires Middleware(path, header).Redirect?
    ensures Middleware(Middleware(path, header).path, header2) == Next
  {
    var l := PreferredLocale(header);
    var target := "/" + l + path;
    assert target == "/" + l + "/" + path[1..];
    assert StartsWith(target, "/" + l + "/") by {
      assert target[..|"/" + l + "/"|] == "/" + l + "/";
    }
    assert l in Locales;
  }

  /** The two agree on every path except those the as-written version sends to
      a "null" segment. */
  lemma {:induction false} AsWrittenAgreesElsewhere(path: string, header: Option<string>)
    requires !(StartsWith(path, "/ar") || StartsWith(path, "/en")) || HasLocale(path)
    ensures MiddlewareAsWritten(path, header) == Middleware(path, header)
  {
  }
}

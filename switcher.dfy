/** The language switcher (components/LanguageSwitcher.tsx): a dropdown of
    the two locales; choosing one rewrites the current path's locale segment
    and navigates there. */
module LanguageSwitcher {
  import opened Wrappers
  import opened Strings
  import I18n

  datatype Language = Language(code: string, name: string)

  const Languages: seq<Language> := [Language("ar", "العربية"), Language("en", "English")]

  /** The dropdown offers exactly the supported locales, in their order. */
  lemma LanguagesAreLocales()
    ensures |Languages| == |I18n.Locales|
    ensures forall i :: 0 <= i < |Languages| ==> Languages[i].code == I18n.Locales[i]
  {
  }

  /** `pathname.replace(`/${locale}`, `/${newLocale}`)`. */
  function SwitchPath(pathname: string, locale: string, newLocale: string): string
  {
    ReplaceFirst(pathname, "/" + locale, "/" + newLocale)
  }

  /** A path that does not contain "/" followed by the locale is kept. */
  lemma SwitchWithoutLocaleKeepsPath(pathname: string, locale: string, newLocale: string)
    requires !Contains(pathname, "/" + locale)
    ensures SwitchPath(pathname, locale, newLocale) == pathname
  {
  }

  /** Otherwise only the first occurrence is rewritten: what precedes it is
      kept and holds no occurrence, and what follows it is kept whole. */
  lemma {:induction false} SwitchRewritesFirstOccurrence(pathname: string, locale: string, newLocale: string)
    requires Contains(pathname, "/" + locale)
    ensures var i := IndexOf(pathname, "/" + locale).value;
      && SwitchPath(pathname, locale, newLocale) == pathname[..i] + "/" + newLocale + pathname[i + |locale| + 1..]
      && (forall j :: 0 <= j < i ==> !OccursAt(pathname, "/" + locale, j))
  {
  }

  /** Switching to the locale already shown yields the same path. */
  lemma {:induction false} SwitchToSameLocale(pathname: string, locale: string)
    ensures SwitchPath(pathname, locale, locale) == pathname
  {
    var pat := "/" + locale;
    match IndexOf(pathname, pat)
    case None =>
    case Some(i) =>
      assert pathname[i..i + |pat|] == pat;
      assert pathname[..i] + pat + pathname[i + |pat|..] == pathname;
  }

  /** On a path under its locale prefix, as the middleware guarantees, the
      switch exchanges the prefix and keeps the rest. */
  lemma {:induction false} SwitchLocalePrefix(rest: string, locale: string, newLocale: string)
    ensures SwitchPath("/" + locale + rest, locale, newLocale) == "/" + newLocale + rest
  {
    var s := "/" + locale + rest;
    var pat := "/" + locale;
    assert s[..|pat|] == pat;
    assert IndexOf(s, pat) == Some(0);
    assert s[|pat|..] == rest;
  }

  /** So switching there and back returns to the starting path. */
  lemma SwitchBackRestoresPath(rest: string, locale: string, newLocale: string)
    ensures SwitchPath(SwitchPath("/" + locale + rest, locale, newLocale), newLocale, locale) == "/" + locale + rest
  {
    SwitchLocalePrefix(rest, locale, newLocale);
    SwitchLocalePrefix(rest, newLocale, locale);
  }

  class Switcher {
    var isOpen: bool
    /** The paths given to `router.push`, oldest first. */
    var pushed: seq<string>
    const locale: string
    const pathname: string

    constructor(locale: string, pathname: string)
      ensures !isOpen && pushed == [] && this.locale == locale && this.pathname == pathname
    {
      isOpen := false;
      pushed := [];
      this.locale := locale;
      this.pathname := pathname;
    }

    /** The globe button. */
    method ToggleMenu()
      modifies this
      ensures isOpen == !old(isOpen) && pushed == old(pushed)
    {
      isOpen := !isOpen;
    }

    /** `switchLanguage` from the button of language `k`, shown only while
        the menu is open: navigate to the rewritten path, then close. */
    method Choose(k: nat)
      requires isOpen && k < |Languages|
      modifies this
      ensures !isOpen
      ensures pushed == old(pushed) + [SwitchPath(pathname, locale, Languages[k].code)]
    {
      var newPathname := ReplaceFirst(pathname, "/" + locale, "/" + Languages[k].code);
      pushed := pushed + [newPathname];
      isOpen := false;
    }
  }
}

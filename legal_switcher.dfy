/** The language buttons of the legal pages, `src/components/LegalPageLanguageSwitcher.tsx`:
    the current locale is the path's two-letter first segment, the other languages are
    offered, and a choice swaps that segment alone. */
module LegalSwitcher {

  import opened Wrappers
  import opened Browser
  import LocalePath
  import LanguageSwitcher

  /** `fullPath.replace(/^\/[a-z]{2}(\/|$)/, '/' + newLocale + '$1')`: the locale segment
      is swapped and what follows it kept; a path without one is left alone. */
  function SwapLocale(fullPath: string, newLocale: string): string {
    match LocalePath.LocaleSegment(fullPath)
    case Some(_) => "/" + newLocale + fullPath[3..]
    case None => fullPath
  }

  /** `languages.filter(lang => lang.code !== current)`. */
  function Others(langs: seq<string>, current: string): (r: seq<string>)
    ensures forall x :: x in r <==> x in langs && x != current
    ensures |r| <= |langs|
  {
    if |langs| == 0 then []
    else if langs[0] == current then Others(langs[1..], current)
    else [langs[0]] + Others(langs[1..], current)
  }

  class Switcher {

    const win: Window
    var currentLocale: string

    constructor (win: Window)
      ensures this.win == win && currentLocale == LocalePath.DefaultLocale
    {
      this.win := win;
      currentLocale := LocalePath.DefaultLocale;
    }

    /** The mount effect, from `window.location.pathname`: the matched segment, or English. */
    method Mount(location: string)
      modifies this
      ensures currentLocale == LocalePath.LocaleSegment(location).GetOr(LocalePath.DefaultLocale)
    {
      currentLocale := LocalePath.LocaleSegment(location).GetOr(LocalePath.DefaultLocale);
    }

    /** The buttons rendered. */
    function Offered(): seq<string>
      reads this
    {
      Others(LocalePath.Languages, currentLocale)
    }

    /** `handleLocaleChange(newLocale)` on the page at `fullPath`. */
    method ChooseLocale(newLocale: string, fullPath: string)
      modifies win
      ensures win.effects == old(win.effects) + [Navigate(SwapLocale(fullPath, newLocale))]
      ensures win.gtag == old(win.gtag) && win.fbq == old(win.fbq) && win.va == old(win.va)
      ensures win.googleTagManager == old(win.googleTagManager)
    {
      win.effects := win.effects + [Navigate(SwapLocale(fullPath, newLocale))];
    }

    /** `handleBackToHome`: the home page of the current locale, replacing this entry. */
    method BackToHome()
      modifies win
      ensures win.effects == old(win.effects) + [ReplaceLocation("/" + currentLocale + "/")]
      ensures win.gtag == old(win.gtag) && win.fbq == old(win.fbq) && win.va == old(win.va)
      ensures win.googleTagManager == old(win.googleTagManager)
    {
      win.effects := win.effects + [ReplaceLocation("/" + currentLocale + "/")];
    }
  }

  // ---------------------------------------------------------------------------------
  // Properties

  /** Swapping keeps everything after the segment and puts the new locale in its place;
      a path without a locale segment is not touched. */
  lemma SwapKeepsRest(l: string, rest: string, newLocale: string)
    requires LocalePath.IsTwoLetters(l) && (rest == "" || rest[0] == '/')
    ensures SwapLocale("/" + l + rest, newLocale) == "/" + newLocale + rest
  {
    var p := "/" + l + rest;
    if rest == "" {
      assert p == "/" + l;
    } else {
      assert "/" + l + "/" <= p;
    }
    LocalePath.LocaleSegmentExact(p, l);
    assert p[3..] == rest;
  }

  /** Swapping to a two-letter locale and back restores the path, and the swapped path
      matches the new locale. */
  lemma SwapRoundTrip(l: string, rest: string, newLocale: string)
    requires LocalePath.IsTwoLetters(l) && LocalePath.IsTwoLetters(newLocale) && (rest == "" || rest[0] == '/')
    ensures LocalePath.LocaleSegment(SwapLocale("/" + l + rest, newLocale)) == Some(newLocale)
    ensures SwapLocale(SwapLocale("/" + l + rest, newLocale), l) == "/" + l + rest
  {
    SwapKeepsRest(l, rest, newLocale);
    SwapKeepsRest(newLocale, rest, l);
    var q := "/" + newLocale + rest;
    if rest == "" {
      assert q == "/" + newLocale;
    } else {
      assert "/" + newLocale + "/" <= q;
    }
    LocalePath.LocaleSegmentExact(q, newLocale);
  }

  /** Without a locale segment the path is left as it is. */
  lemma SwapWithoutSegment(fullPath: string, newLocale: string)
    requires LocalePath.LocaleSegment(fullPath).None?
    ensures SwapLocale(fullPath, newLocale) == fullPath
  {
  }

  /** On a path with a locale segment the dropdown's rewrite and this one agree; on
      `/english` they part. */
  lemma SwitchersAgreeOnSegments(l: string, rest: string, newLocale: string)
    requires LocalePath.IsTwoLetters(l) && (rest == "" || rest[0] == '/')
    ensures LanguageSwitcher.SwitchPath("/" + l + rest, newLocale) == SwapLocale("/" + l + rest, newLocale)
  {
    SwapKeepsRest(l, rest, newLocale);
    LanguageSwitcher.SwitchIgnoresBoundary(l, rest, newLocale);
  }

  /** The current language is never offered, and every other one is. */
  lemma OffersTheOthers(current: string)
    ensures forall l :: l in Others(LocalePath.Languages, current) <==> l in LocalePath.Languages && l != current
    ensures current in LocalePath.Languages ==> |Others(LocalePath.Languages, current)| == 2
  {
    if current in LocalePath.Languages {
      assert Others(LocalePath.Languages, current) == if current == "en" then ["es", "el"]
        else if current == "es" then ["en", "el"] else ["en", "es"];
    }
  }
}

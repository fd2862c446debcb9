/** The language dropdown of `src/components/LanguageSwitcher.tsx`: the current locale is
    read off the start of the path, a different choice rewrites the first two letters of
    the path, and a back-to-home link shows away from the home page. */
module LanguageSwitcher {

  import opened Wrappers
  import opened Browser
  import Text
  import LocalePath

  /** `langs.find(l => pathname.startsWith('/' + l))`. */
  function FirstPrefixed(langs: seq<string>, pathname: string): (r: Option<string>)
    ensures r.None? <==> forall i :: 0 <= i < |langs| ==> !("/" + langs[i] <= pathname)
    ensures r.Some? ==>
      exists i :: 0 <= i < |langs| && langs[i] == r.value && "/" + langs[i] <= pathname
        && forall j :: 0 <= j < i ==> !("/" + langs[j] <= pathname)
  {
    if |langs| == 0 then None
    else if "/" + langs[0] <= pathname then Some(langs[0])
    else
      var r := FirstPrefixed(langs[1..], pathname);
      assert forall i :: 1 <= i < |langs| ==> langs[i] == langs[1..][i - 1];
      r
  }

  /** The locale the dropdown shows as current: the first language whose `/<code>` starts
      the path, whether or not a segment ends there; English otherwise. */
  function CurrentLocale(pathname: string): string {
    FirstPrefixed(LocalePath.Languages, pathname).GetOr(LocalePath.DefaultLocale)
  }

  /** The page is `/<locale>` or `/<locale>/` for the current locale. */
  predicate IsHomePage(pathname: string) {
    pathname == "/" + CurrentLocale(pathname) || pathname == "/" + CurrentLocale(pathname) + "/"
  }

  /** `pathname.replace(/^\/[a-z]{2}/, '/' + newLocale)`: the two letters after the
      leading `/` are replaced, whatever follows them. */
  function SwitchPath(pathname: string, newLocale: string): string {
    if |pathname| >= 3 && pathname[0] == '/' && LocalePath.IsTwoLetters(pathname[1..3])
    then "/" + newLocale + pathname[3..]
    else pathname
  }

  class Switcher {

    const win: Window
    const pathname: string
    var isOpen: bool

    constructor (win: Window, pathname: string)
      ensures this.win == win && this.pathname == pathname && !isOpen
    {
      this.win := win;
      this.pathname := pathname;
      isOpen := false;
    }

    /** The dropdown button. */
    method Toggle()
      modifies this
      ensures isOpen == !old(isOpen)
    {
      isOpen := !isOpen;
    }

    /** A `mousedown` anywhere: outside the component it closes the dropdown. */
    method MouseDown(inside: bool)
      modifies this
      ensures isOpen == (old(isOpen) && inside)
    {
      if !inside {
        isOpen := false;
      }
    }

    /** `handleLocaleChange(newLocale)`: the current locale only closes the dropdown;
        another one loads the rewritten path. */
    method ChooseLocale(newLocale: string)
      modifies this, win
      ensures newLocale == CurrentLocale(pathname) ==> !isOpen && win.effects == old(win.effects)
      ensures newLocale != CurrentLocale(pathname) ==>
        isOpen == old(isOpen) && win.effects == old(win.effects) + [Navigate(SwitchPath(pathname, newLocale))]
      ensures win.gtag == old(win.gtag) && win.fbq == old(win.fbq) && win.va == old(win.va)
      ensures win.googleTagManager == old(win.googleTagManager)
    {
      if newLocale == CurrentLocale(pathname) {
        isOpen := false;
      } else {
        win.effects := win.effects + [Navigate(SwitchPath(pathname, newLocale))];
      }
    }

    /** Whether the back-to-home button is rendered. */
    predicate ShowsBackToHome()
      reads this
    {
      !IsHomePage(pathname)
    }

    /** `handleBackToHome` */
    method BackToHome()
      modifies win
      ensures win.effects == old(win.effects) + [Navigate("/" + CurrentLocale(pathname))]
      ensures win.gtag == old(win.gtag) && win.fbq == old(win.fbq) && win.va == old(win.va)
      ensures win.googleTagManager == old(win.googleTagManager)
    {
      win.effects := win.effects + [Navigate("/" + CurrentLocale(pathname))];
    }
  }

  // ---------------------------------------------------------------------------------
  // Properties

  /** Two prefixes of the same length of one path are equal. */
  lemma SameLengthPrefixes(a: string, b: string, s: string)
    requires a <= s && b <= s && |a| == |b|
    ensures a == b
  {
    assert a == s[..|a|] && b == s[..|b|];
  }

  /** A path that starts with `/<code>` for an offered language shows that language:
      the three codes are distinct and of one length, so at most one can start a path. */
  lemma CurrentOfPrefixed(pathname: string, l: string)
    requires l in LocalePath.Languages && "/" + l <= pathname
    ensures CurrentLocale(pathname) == l
  {
    var r := FirstPrefixed(LocalePath.Languages, pathname);
    var k :| 0 <= k < 3 && LocalePath.Languages[k] == l;
    assert r.Some?;
    var i :| 0 <= i < 3 && LocalePath.Languages[i] == r.value && "/" + LocalePath.Languages[i] <= pathname;
    LocalePath.LanguagesMatch(l);
    LocalePath.LanguagesMatch(r.value);
    SameLengthPrefixes("/" + l, "/" + r.value, pathname);
  }

  /** A path that starts with none of them shows English. */
  lemma CurrentOfUnprefixed(pathname: string)
    requires forall l :: l in LocalePath.Languages ==> !("/" + l <= pathname)
    ensures CurrentLocale(pathname) == LocalePath.DefaultLocale
  {
    assert forall i :: 0 <= i < 3 ==> LocalePath.Languages[i] in LocalePath.Languages;
  }

  /** The rewrite has no segment-boundary check: any two lower-case letters after the
      leading `/` are replaced, so `/english` becomes `/esglish`. */
  lemma SwitchIgnoresBoundary(two: string, rest: string, newLocale: string)
    requires LocalePath.IsTwoLetters(two)
    ensures SwitchPath("/" + two + rest, newLocale) == "/" + newLocale + rest
  {
    var p := "/" + two + rest;
    assert p[1..3] == two && p[3..] == rest;
  }

  /** Switching between two offered languages and back restores the path, and the
      switched path shows the new language. */
  lemma SwitchRoundTrip(l: string, rest: string, newLocale: string)
    requires l in LocalePath.Languages && newLocale in LocalePath.Languages
    ensures SwitchPath("/" + l + rest, newLocale) == "/" + newLocale + rest
    ensures SwitchPath(SwitchPath("/" + l + rest, newLocale), l) == "/" + l + rest
    ensures CurrentLocale(SwitchPath("/" + l + rest, newLocale)) == newLocale
  {
    LocalePath.LanguagesMatch(l);
    LocalePath.LanguagesMatch(newLocale);
    SwitchIgnoresBoundary(l, rest, newLocale);
    SwitchIgnoresBoundary(newLocale, rest, l);
    CurrentOfPrefixed("/" + newLocale + rest, newLocale);
  }

  /** The home page is the bare locale path, with or without its trailing `/`; deeper
      paths show the back-to-home button. */
  lemma HomePages(l: string, rest: string)
    requires l in LocalePath.Languages
    ensures IsHomePage("/" + l + rest) <==> rest == "" || rest == "/"
  {
    CurrentOfPrefixed("/" + l + rest, l);
    if "/" + l + rest == "/" + l + "/" {
      assert rest == ("/" + l + rest)[|l| + 1..];
    }
    if "/" + l + rest == "/" + l {
      assert |rest| == 0;
    }
  }
}

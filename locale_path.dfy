/** The locale prefix of a path, as the language selectors read it: the three languages
    they offer and the regular expression `/^\/([a-z]{2})(\/|$)/` of
    `src/components/LanguageSelectorPopup.tsx` and
    `src/components/LegalPageLanguageSwitcher.tsx`. */
module LocalePath {

  import opened Wrappers
  import Text

  /** The languages every selector offers, in display order. */
  const Languages: seq<string> := ["en", "es", "el"]

  const DefaultLocale: string := "en"

  /** Two lower-case ASCII letters. */
  predicate IsTwoLetters(l: string) {
    |l| == 2 && Text.IsLowerLetter(l[0]) && Text.IsLowerLetter(l[1])
  }

  /** `path.match(/^\/([a-z]{2})(\/|$)/)?.[1]`. */
  function LocaleSegment(path: string): Option<string> {
    if |path| >= 3 && path[0] == '/' && IsTwoLetters(path[1..3]) && (|path| == 3 || path[3] == '/')
    then Some(path[1..3])
    else None
  }

  /** The match is exactly a leading segment of two lower-case letters, ending the path or
      followed by `/`. */
  lemma LocaleSegmentExact(path: string, l: string)
    requires IsTwoLetters(l)
    ensures LocaleSegment(path) == Some(l) <==> path == "/" + l || "/" + l + "/" <= path
  {
    if LocaleSegment(path) == Some(l) {
      if |path| == 3 {
        assert path == "/" + l;
      } else {
        assert path[..4] == "/" + l + "/";
      }
    }
    if path == "/" + l {
      assert path[1..3] == l;
    } else if "/" + l + "/" <= path {
      assert path[1..3] == ("/" + l + "/")[1..3] == l;
      assert path[3] == ("/" + l + "/")[3];
    }
  }

  /** Whatever matched is two lower-case letters standing as the path's first segment. */
  lemma LocaleSegmentShape(path: string)
    ensures LocaleSegment(path).Some? ==>
      && IsTwoLetters(LocaleSegment(path).value)
      && (path == "/" + LocaleSegment(path).value || "/" + LocaleSegment(path).value + "/" <= path)
  {
    if LocaleSegment(path).Some? {
      LocaleSegmentExact(path, LocaleSegment(path).value);
    }
  }

  /** Each offered language is two lower-case letters, so each `/<code>` path matches. */
  lemma LanguagesMatch(l: string)
    requires l in Languages
    ensures IsTwoLetters(l) && LocaleSegment("/" + l) == Some(l)
  {
    LocaleSegmentExact("/" + l, l);
  }
}

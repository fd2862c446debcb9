/** The cookie banner's mount point of `src/components/CookieConsentWrapper.tsx`: the
    banner is left out on legal pages, so that the policies can be read without it. */
module ConsentWrapper {

  import Text
  import Proxy

  /** The three localised legal sections, which count only as a prefix. */
  const LegalPrefixes: seq<string> := ["/en/legal", "/es/legal", "/el/legal"]

  /** The four policy slugs, which count anywhere in the path. */
  const PolicyFragments: seq<string> := ["/cookie-policy", "/privacy-policy", "/terms-of-service", "/data-protection"]

  predicate IsLegalPage(pathname: string) {
    || (exists i :: 0 <= i < |LegalPrefixes| && LegalPrefixes[i] <= pathname)
    || (exists i :: 0 <= i < |PolicyFragments| && Text.Contains(pathname, PolicyFragments[i]))
  }

  datatype Rendered = Nothing | Banner(position: string)

  function Wrapper(pathname: string): Rendered {
    if IsLegalPage(pathname) then Nothing else Banner("bottom")
  }

  /** Every page the banner skips is one the middleware treats as legal too. */
  lemma SkippedPagesAreLegal(pathname: string)
    requires Wrapper(pathname) == Nothing
    ensures Proxy.IsLegalPage(pathname)
  {
    if i :| 0 <= i < |LegalPrefixes| && LegalPrefixes[i] <= pathname {
      assert LegalPrefixes[i] == LegalPrefixes[i][..3] + Proxy.LegalFragments[4];
      Text.PrefixShift(LegalPrefixes[i][..3], Proxy.LegalFragments[4], pathname);
      Proxy.FragmentMakesLegal(pathname, 4, 3);
    } else {
      var i :| 0 <= i < |PolicyFragments| && Text.Contains(pathname, PolicyFragments[i]);
      var j := if i == 0 then 1 else if i == 1 then 0 else if i == 2 then 3 else 2;
      assert Proxy.LegalFragments[j] == PolicyFragments[i];
    }
  }

  /** A legal section in another language, without a policy slug, still shows the banner,
      while the middleware treats it as a legal page. */
  lemma OtherLanguageLegalShowsBanner()
    ensures Wrapper("/fr/legal") == Banner("bottom")
    ensures Proxy.IsLegalPage("/fr/legal")
  {
    var p := "/fr/legal";
    forall i | 0 <= i < |PolicyFragments| ensures !Text.Contains(p, PolicyFragments[i]) {
      Text.ContainsTooLong(p, PolicyFragments[i]);
    }
    assert forall i :: 0 <= i < |LegalPrefixes| ==> LegalPrefixes[i][1] != p[1];
    assert p[3..] == Proxy.LegalFragments[4];
    Proxy.FragmentMakesLegal(p, 4, 3);
  }
}

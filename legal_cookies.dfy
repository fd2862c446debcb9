/** The two cookie-string predicates of `src/hooks/useHasLegalAcceptance.ts` and
    `src/hooks/useHasLanguageCookie.ts`, read from the text of `document.cookie`. Each
    hook holds `false` until its effect has run once, and then the predicate's value. */
module LegalCookies {

  import opened Wrappers
  import opened Browser
  import Text
  import CookieManager

  const LocaleCookie: string := "NEXT_LOCALE"

  /** One `;`-separated entry, trimmed and split at `=`: its name must be exactly
      `legal_accepted`, and the text up to the next `=` must not be empty. An entry with no
      `=` has an `undefined` value, which is not `''`, so it counts. */
  predicate EntryAccepts(entry: string) {
    var parts := Text.Split(Text.Trim(entry), '=');
    parts[0] == CookieManager.LegalCookie && (|parts| < 2 || parts[1] != "")
  }

  /** `useHasLegalAcceptance`, once its effect has run. */
  predicate HasLegalAcceptance(doc: string) {
    var entries := Text.Split(doc, ';');
    exists i :: 0 <= i < |entries| && EntryAccepts(entries[i])
  }

  /** One entry, trimmed, starts with `NEXT_LOCALE=`. */
  predicate EntryIsLocale(entry: string) {
    LocaleCookie + "=" <= Text.Trim(entry)
  }

  /** `useHasLanguageCookie`, once its effect has run. */
  predicate HasLanguageCookie(doc: string) {
    var entries := Text.Split(doc, ';');
    exists i :: 0 <= i < |entries| && EntryIsLocale(entries[i])
  }

  // ---------------------------------------------------------------------------------
  // The entries of a rendered store

  /** Entry `i` of `document.cookie.split(';')`: the pair, after a blank unless first. */
  lemma {:induction false} PiecesAt(cs: seq<Cookie>, lead: string, i: nat)
    requires i < |cs|
    ensures Pieces(cs, lead)[i] == (if i == 0 then lead else " ") + cs[i].name + "=" + cs[i].value
    decreases |cs|
  {
    if i > 0 {
      PiecesAt(cs[1..], " ", i - 1);
    }
  }

  /** The text `name=value` of a well-formed pair neither starts nor ends with white
      space. */
  lemma PairUnpadded(n: string, v: string)
    requires IsName(n) && IsValue(v)
    ensures Text.Unpadded(n + "=" + v)
  {
    var s := n + "=" + v;
    assert s[0] == n[0];
    if |v| > 0 {
      assert s[|s| - 1] == v[|v| - 1];
    } else {
      assert s[|s| - 1] == '=';
    }
  }

  /** Trimming an entry of a well-formed store leaves its `name=value` text. */
  lemma EntryTrim(n: string, v: string, lead: string)
    requires IsName(n) && IsValue(v) && (lead == "" || lead == " ")
    ensures Text.Trim(lead + n + "=" + v) == n + "=" + v
  {
    var s := n + "=" + v;
    PairUnpadded(n, v);
    if lead == "" {
      assert lead + n + "=" + v == s;
      Text.TrimUnpadded(s);
    } else {
      assert lead + n + "=" + v == " " + s;
      Text.TrimAfterBlank(s);
    }
  }

  /** Splitting `name=value` at `=` gives the name, then the value's own pieces. */
  lemma EntrySplit(c: Cookie)
    requires IsName(c.name)
    ensures |Text.Split(c.name + "=" + c.value, '=')| >= 2
    ensures Text.Split(c.name + "=" + c.value, '=') == [c.name] + Text.Split(c.value, '=')
  {
    assert '=' !in c.name;
    assert c.name + "=" + c.value == c.name + ['='] + c.value;
    Text.SplitAt(c.name, c.value, '=');
  }

  /** The first piece of a split is empty exactly when the text is empty or starts with
      the separator. */
  lemma FirstPieceEmpty(s: string, d: char)
    ensures Text.Split(s, d)[0] == "" <==> s == "" || s[0] == d
  {
  }

  /** The entry `name=value` accepts exactly when the name is `legal_accepted` and the
      value neither is empty nor starts with `=`. */
  lemma PairAccepts(n: string, v: string, lead: string)
    requires IsName(n) && IsValue(v) && (lead == "" || lead == " ")
    ensures EntryAccepts(lead + n + "=" + v) <==> n == CookieManager.LegalCookie && v != "" && v[0] != '='
  {
    EntryTrim(n, v, lead);
    EntrySplit(Cookie(n, v, 0));
    FirstPieceEmpty(v, '=');
  }

  /** The entry of a stored cookie accepts exactly when the cookie is `legal_accepted` and
      its value neither is empty nor starts with `=`. */
  lemma StoredEntryAccepts(cs: seq<Cookie>, lead: string, i: nat)
    requires WellFormed(cs) && (lead == "" || lead == " ") && i < |cs|
    ensures EntryAccepts(Pieces(cs, lead)[i]) <==>
      cs[i].name == CookieManager.LegalCookie && cs[i].value != "" && cs[i].value[0] != '='
  {
    PiecesAt(cs, lead, i);
    PairAccepts(cs[i].name, cs[i].value, if i == 0 then lead else " ");
  }

  lemma LocaleNoEquals()
    ensures '=' !in LocaleCookie
  {
  }

  /** The entry of a stored cookie is the locale's exactly when the names agree. */
  lemma StoredEntryIsLocale(cs: seq<Cookie>, lead: string, i: nat)
    requires WellFormed(cs) && (lead == "" || lead == " ") && i < |cs|
    ensures EntryIsLocale(Pieces(cs, lead)[i]) <==> cs[i].name == LocaleCookie
  {
    var l := if i == 0 then lead else " ";
    PiecesAt(cs, lead, i);
    EntryTrim(cs[i].name, cs[i].value, l);
    assert '=' !in cs[i].name;
    LocaleNoEquals();
    assert cs[i].name + "=" + cs[i].value == cs[i].name + "=" + cs[i].value;
    NamePrefix(LocaleCookie, cs[i].name, cs[i].value);
  }

  /** The stored value of a cookie, found at any index of a well-formed store. */
  lemma LookupAt(cs: seq<Cookie>, i: nat)
    requires WellFormed(cs) && i < |cs|
    ensures Lookup(cs, cs[i].name) == Some(cs[i].value)
  {
    assert cs[i] in cs;
    LookupByMembership(cs, cs[i]);
  }

  // ---------------------------------------------------------------------------------
  // Properties

  /** On the browser's own store, legal acceptance is a stored `legal_accepted` value that
      is not empty and does not start with `=`. */
  lemma LegalAcceptanceOfStore(cs: seq<Cookie>)
    requires WellFormed(cs)
    ensures HasLegalAcceptance(Render(cs)) <==>
      match Lookup(cs, CookieManager.LegalCookie)
      case None => false
      case Some(v) => v != "" && v[0] != '='
  {
    assert "" + Render(cs) == Render(cs);
    SplitRender(cs, "");
    var entries := Text.Split(Render(cs), ';');
    if |cs| == 0 {
      assert entries == [""];
      assert !EntryAccepts(entries[0]) by {
        assert Text.Trim("") == "";
        assert Text.Split("", '=') == [""];
        assert CookieManager.LegalCookie != "";
      }
    } else if HasLegalAcceptance(Render(cs)) {
      var i :| 0 <= i < |entries| && EntryAccepts(entries[i]);
      StoredEntryAccepts(cs, "", i);
      LookupAt(cs, i);
    } else if Lookup(cs, CookieManager.LegalCookie).Some? {
      var v := Lookup(cs, CookieManager.LegalCookie).value;
      var i :| 0 <= i < |cs| && cs[i].name == CookieManager.LegalCookie && cs[i].value == v;
      StoredEntryAccepts(cs, "", i);
    }
  }

  /** On the browser's own store, the language cookie is present exactly when a
      `NEXT_LOCALE` cookie is stored, whatever its value, the empty one included. */
  lemma LanguageCookieOfStore(cs: seq<Cookie>)
    requires WellFormed(cs)
    ensures HasLanguageCookie(Render(cs)) <==> Lookup(cs, LocaleCookie).Some?
  {
    assert "" + Render(cs) == Render(cs);
    SplitRender(cs, "");
    var entries := Text.Split(Render(cs), ';');
    if |cs| == 0 {
      assert entries == [""];
      assert !EntryIsLocale(entries[0]) by {
        assert Text.Trim("") == "";
      }
    } else if HasLanguageCookie(Render(cs)) {
      var i :| 0 <= i < |entries| && EntryIsLocale(entries[i]);
      StoredEntryIsLocale(cs, "", i);
    } else if Lookup(cs, LocaleCookie).Some? {
      var i :| 0 <= i < |cs| && cs[i].name == LocaleCookie && cs[i].value == Lookup(cs, LocaleCookie).value;
      StoredEntryIsLocale(cs, "", i);
    }
  }

  /** `legal_accepted=` with an empty value is refused. */
  lemma EmptyValueRefused()
    ensures !EntryAccepts(CookieManager.LegalCookie + "=")
  {
    CookieManager.LegalCookieName();
    EmptyValueRefusedFor(CookieManager.LegalCookie);
  }

  lemma EmptyValueRefusedFor(n: string)
    requires IsName(n)
    ensures !EntryAccepts(n + "=")
  {
    var e := n + "=";
    assert Text.Trim(e) == e by {
      assert IsValue("");
      EntryTrim(n, "", "");
      assert "" + n + "=" + "" == e;
    }
    assert Text.Split(e, '=') == [n] + Text.Split("", '=') by {
      EntrySplit(Cookie(n, "", 0));
      assert n + "=" + "" == e;
    }
    FirstPieceEmpty("", '=');
  }

  /** A bare `legal_accepted` with no `=` at all is accepted. */
  lemma BareNameAccepted()
    ensures EntryAccepts(CookieManager.LegalCookie)
  {
    var n := CookieManager.LegalCookie;
    CookieManager.LegalCookieName();
    assert Text.Unpadded(n) by {
      assert n[0] in n && n[|n| - 1] in n;
    }
    Text.TrimUnpadded(n);
    Text.SplitWithout(n, '=');
  }

  /** Only the text between the first and the second `=` is looked at. */
  lemma SecondEqualsCuts(v: string)
    requires IsValue(v)
    ensures !EntryAccepts(CookieManager.LegalCookie + "=" + "=" + v)
  {
    CookieManager.LegalCookieName();
    LeadingEqualsRefused(CookieManager.LegalCookie, v);
  }

  /** A value that starts with `=` is refused whatever the name. */
  lemma LeadingEqualsRefused(n: string, v: string)
    requires IsName(n) && IsValue(v)
    ensures !EntryAccepts(n + "=" + "=" + v)
  {
    var w := "=" + v;
    assert IsValue(w) by {
      forall i | 0 <= i < |w| ensures w[i] != ';' {
        if i > 0 {
          assert w[i] == v[i - 1];
        }
      }
      assert |v| > 0 ==> w[|w| - 1] == v[|v| - 1];
    }
    var a := n + "=";
    assert a + w == a + "=" + v by {
      forall k | 0 <= k < |a| + |w| ensures (a + w)[k] == (a + "=" + v)[k] {
        if k > |a| {
          assert (a + w)[k] == v[k - |a| - 1];
        }
      }
    }
    assert !EntryAccepts(a + w) by {
      assert "" + n + "=" + w == a + w by {
        assert "" + n == n;
      }
      PairAccepts(n, w, "");
    }
  }


  /** An empty cookie string holds neither cookie. */
  lemma EmptyDocument()
    ensures !HasLegalAcceptance("") && !HasLanguageCookie("")
  {
    assert Text.Split("", ';') == [""];
    assert Text.Trim("") == "";
    assert Text.Split("", '=') == [""];
  }

  /** `NEXT_LOCALE=` with an empty value still counts as a language cookie. */
  lemma EmptyLocaleCounts()
    ensures HasLanguageCookie("NEXT_LOCALE=")
  {
    Text.SplitWithout("NEXT_LOCALE=", ';');
    assert Text.Trim("NEXT_LOCALE=") == "NEXT_LOCALE=";
    assert EntryIsLocale(Text.Split("NEXT_LOCALE=", ';')[0]);
  }
}

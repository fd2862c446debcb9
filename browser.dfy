/** The browser the client-side core runs in: the cookie store behind `document.cookie`,
    and the window globals, events, script tags and requests the trackers leave behind. */
module Browser {

  import opened Wrappers
  import opened Values
  import Text

  const MsPerDay: int := 24 * 60 * 60 * 1000

  /** The public build-time settings (`process.env.NEXT_PUBLIC_...`); `None` is unset. */
  datatype Env = Env(
    gaMeasurementId: Option<string>,
    gtmId: Option<string>,
    metaPixelId: Option<string>,
    adsConversionId: Option<string>)

  /** An optional string that is present and not empty: the truthiness the core tests
      on settings, headers and arguments. */
  predicate IsSet(o: Option<string>) {
    o.Some? && o.value != ""
  }

  /** An optional string passed as a value: `undefined` when absent. */
  function OptionalValue(o: Option<string>): Value {
    match o
    case Some(s) => Str(s)
    case None => Undefined
  }

  /** One stored cookie: its name, its value and its expiry in milliseconds since the
      epoch, cut to the whole second an `expires=` attribute carries. */
  datatype Cookie = Cookie(name: string, value: string, expires: int)

  /** A cookie name the store keeps as written: non-empty, no `;`, `=` or white space. */
  predicate IsName(n: string) {
    |n| > 0 && forall i :: 0 <= i < |n| ==> n[i] != ';' && n[i] != '=' && !Text.IsWhitespace(n[i])
  }

  /** A cookie value the store keeps as written: no `;`, and no white space at either
      end (browsers trim it there and keep it inside). */
  predicate IsValue(v: string) {
    && (forall i :: 0 <= i < |v| ==> v[i] != ';')
    && (|v| > 0 ==> !Text.IsWhitespace(v[0]) && !Text.IsWhitespace(v[|v| - 1]))
  }

  /** A store of well-formed cookies, at most one per name (paths and domains are not
      modelled: every cookie of the core is written for `path=/`). */
  predicate WellFormed(cs: seq<Cookie>) {
    && (forall i :: 0 <= i < |cs| ==> IsName(cs[i].name) && IsValue(cs[i].value))
    && (forall i, j :: 0 <= i < j < |cs| ==> cs[i].name != cs[j].name)
  }

  /** The value stored under `name`, if any. */
  function Lookup(cs: seq<Cookie>, name: string): (r: Option<string>)
    ensures r.None? <==> forall i :: 0 <= i < |cs| ==> cs[i].name != name
    ensures r.Some? ==> exists i :: 0 <= i < |cs| && cs[i].name == name && cs[i].value == r.value
  {
    if |cs| == 0 then None
    else if cs[0].name == name then Some(cs[0].value)
    else
      var r := Lookup(cs[1..], name);
      assert forall i :: 1 <= i < |cs| ==> cs[i] == cs[1..][i - 1];
      r
  }

  function Remove(cs: seq<Cookie>, name: string): seq<Cookie> {
    if |cs| == 0 then []
    else if cs[0].name == name then Remove(cs[1..], name)
    else [cs[0]] + Remove(cs[1..], name)
  }

  /** Removing keeps exactly the cookies of other names. */
  lemma {:induction false} RemoveMembers(cs: seq<Cookie>, name: string)
    ensures forall c :: c in Remove(cs, name) <==> c in cs && c.name != name
    decreases |cs|
  {
    if |cs| > 0 {
      RemoveMembers(cs[1..], name);
      assert cs == [cs[0]] + cs[1..];
    }
  }

  /** Replace the cookie of the same name where it stands, or append a new one. */
  function Upsert(cs: seq<Cookie>, c: Cookie): seq<Cookie> {
    if |cs| == 0 then [c]
    else if cs[0].name == c.name then [c] + cs[1..]
    else [cs[0]] + Upsert(cs[1..], c)
  }

  /** Upserting adds the new cookie, drops at most the old one of its name, and keeps
      every cookie of another name. */
  lemma {:induction false} UpsertMembers(cs: seq<Cookie>, c: Cookie)
    ensures c in Upsert(cs, c)
    ensures forall d :: d in Upsert(cs, c) ==> d == c || d in cs
    ensures forall d :: d in cs && d.name != c.name ==> d in Upsert(cs, c)
    decreases |cs|
  {
    if |cs| > 0 {
      UpsertMembers(cs[1..], c);
      assert cs == [cs[0]] + cs[1..];
    }
  }

  /** What the assignment `document.cookie = "name=value;expires=..."` leaves in the store:
      an expiry that is not in the future deletes the cookie, any other one sets it. */
  function Store(cs: seq<Cookie>, name: string, value: string, expires: int, now: int): seq<Cookie> {
    if expires <= now then Remove(cs, name) else Upsert(cs, Cookie(name, value, expires))
  }

  lemma {:induction false} RemoveWellFormed(cs: seq<Cookie>, name: string)
    requires WellFormed(cs)
    ensures WellFormed(Remove(cs, name))
    ensures forall c :: c in Remove(cs, name) ==> c in cs
    decreases |cs|
  {
    RemoveMembers(cs, name);
    if |cs| > 0 {
      assert WellFormed(cs[1..]);
      RemoveWellFormed(cs[1..], name);
      RemoveMembers(cs[1..], name);
    }
  }

  lemma {:induction false} UpsertWellFormed(cs: seq<Cookie>, c: Cookie)
    requires WellFormed(cs) && IsName(c.name) && IsValue(c.value)
    ensures WellFormed(Upsert(cs, c))
    decreases |cs|
  {
    if |cs| > 0 {
      assert WellFormed(cs[1..]);
      UpsertWellFormed(cs[1..], c);
      UpsertMembers(cs[1..], c);
      if cs[0].name != c.name {
        var r := Upsert(cs[1..], c);
        assert forall d :: d in r ==> d.name != cs[0].name by {
          forall d | d in r ensures d.name != cs[0].name {
            if d != c {
              var k :| 1 <= k < |cs| && cs[k] == d;
              assert cs[k].name != cs[0].name;
            }
          }
        }
        assert forall j :: 0 <= j < |r| ==> r[j] in r;
      } else {
        assert forall j :: 1 <= j < |cs| ==> cs[j].name != c.name;
      }
    }
  }

  /** Writing a well-formed cookie keeps the store well formed. */
  lemma StoreWellFormed(cs: seq<Cookie>, name: string, value: string, expires: int, now: int)
    requires WellFormed(cs) && IsName(name) && IsValue(value)
    ensures WellFormed(Store(cs, name, value, expires, now))
  {
    if expires <= now {
      RemoveWellFormed(cs, name);
    } else {
      UpsertWellFormed(cs, Cookie(name, value, expires));
    }
  }

  lemma LookupByMembership(cs: seq<Cookie>, c: Cookie)
    requires WellFormed(cs) && c in cs
    ensures Lookup(cs, c.name) == Some(c.value)
  {
    var r := Lookup(cs, c.name);
    var i :| 0 <= i < |cs| && cs[i].name == c.name && cs[i].value == r.value;
    var k :| 0 <= k < |cs| && cs[k] == c;
    if i < k {
      assert cs[i].name != cs[k].name;
    } else if k < i {
      assert cs[k].name != cs[i].name;
    }
  }

  /** Read after write: the written name holds the new value (or nothing, once expired)
      and every other name keeps what it had. */
  lemma StoreLookup(cs: seq<Cookie>, name: string, value: string, expires: int, now: int, other: string)
    requires WellFormed(cs) && IsName(name) && IsValue(value)
    ensures Lookup(Store(cs, name, value, expires, now), other) ==
      if other == name then (if expires <= now then None else Some(value)) else Lookup(cs, other)
  {
    var r := Store(cs, name, value, expires, now);
    StoreWellFormed(cs, name, value, expires, now);
    RemoveMembers(cs, name);
    UpsertMembers(cs, Cookie(name, value, expires));
    if other == name {
      if expires > now {
        LookupByMembership(r, Cookie(name, value, expires));
      }
    } else if Lookup(cs, other).Some? {
      var i :| 0 <= i < |cs| && cs[i].name == other && cs[i].value == Lookup(cs, other).value;
      assert cs[i] in cs;
      LookupByMembership(r, cs[i]);
    } else {
      forall j | 0 <= j < |r| ensures r[j].name != other {
        assert r[j] in r;
      }
    }
  }

  /** The `name=value` text of every cookie, in store order. */
  function Pairs(cs: seq<Cookie>): (r: seq<string>)
    ensures |r| == |cs|
    ensures forall i :: 0 <= i < |cs| ==> r[i] == cs[i].name + "=" + cs[i].value
  {
    if |cs| == 0 then [] else [cs[0].name + "=" + cs[0].value] + Pairs(cs[1..])
  }

  /** The `document.cookie` getter: `a=1; b=2`. */
  function Render(cs: seq<Cookie>): string {
    Text.Join(Pairs(cs), "; ")
  }

  /** `"; " + document.cookie` for a non-empty store: `; a=1; b=2`. */
  function Concat(cs: seq<Cookie>): (r: string)
    ensures |cs| > 0 ==> |r| > 0 && r[0] == ';'
  {
    if |cs| == 0 then "" else "; " + cs[0].name + "=" + cs[0].value + Concat(cs[1..])
  }

  lemma {:induction false} RenderConcat(cs: seq<Cookie>)
    requires |cs| > 0
    ensures "; " + Render(cs) == Concat(cs)
    decreases |cs|
  {
    if |cs| > 1 {
      RenderConcat(cs[1..]);
      assert Pairs(cs)[1..] == Pairs(cs[1..]);
    }
  }

  /** A name followed by `=` is a prefix of a cookie's text exactly when the names agree. */
  lemma NamePrefix(m: string, n: string, rest: string)
    requires '=' !in m && '=' !in n
    ensures (m + "=") <= (n + "=" + rest) <==> m == n
  {
    var t := n + "=" + rest;
    if m != n {
      if |m| < |n| {
        assert n[|m|] in n;
        assert t[|m|] != (m + "=")[|m|];
      } else if |m| > |n| {
        assert m[|n|] in m;
        assert t[|n|] != (m + "=")[|n|];
      } else {
        assert t[..|n|] == n;
        assert (m + "=")[..|m|] == m;
      }
    }
  }

  /** The pieces `document.cookie.split(';')` yields, after `lead` ("" for the first). */
  function Pieces(cs: seq<Cookie>, lead: string): (r: seq<string>)
    ensures |r| == if |cs| == 0 then 1 else |cs|
    decreases |cs|
  {
    if |cs| == 0 then [lead]
    else if |cs| == 1 then [lead + cs[0].name + "=" + cs[0].value]
    else [lead + cs[0].name + "=" + cs[0].value] + Pieces(cs[1..], " ")
  }

  lemma PairWithoutSemicolon(c: Cookie, lead: string)
    requires IsName(c.name) && IsValue(c.value) && (lead == "" || lead == " ")
    ensures ';' !in lead + c.name + "=" + c.value
  {
    var head := lead + c.name + "=" + c.value;
    forall k | 0 <= k < |head| ensures head[k] != ';' {
      if k >= |lead| + |c.name| + 1 {
        assert head[k] == c.value[k - |lead| - |c.name| - 1];
      } else if k >= |lead| + |c.name| {
        assert head[k] == '=';
      } else if k >= |lead| {
        assert head[k] == c.name[k - |lead|];
      }
    }
  }

  /** `document.cookie.split(';')` yields the first pair as it stands and every other
      after a blank. */
  lemma {:induction false} SplitRender(cs: seq<Cookie>, lead: string)
    requires WellFormed(cs) && (lead == "" || lead == " ")
    ensures Text.Split(lead + Render(cs), ';') == Pieces(cs, lead)
    decreases |cs|
  {
    if |cs| == 0 {
      assert lead + Render(cs) == lead;
      Text.SplitWithout(lead, ';');
    } else {
      var head := lead + cs[0].name + "=" + cs[0].value;
      PairWithoutSemicolon(cs[0], lead);
      if |cs| == 1 {
        assert lead + Render(cs) == head;
        Text.SplitWithout(head, ';');
      } else {
        var tail := cs[1..];
        assert WellFormed(tail);
        RenderCons(cs, lead);
        Text.SplitAt(head, " " + Render(tail), ';');
        SplitRender(tail, " ");
      }
    }
  }

  /** A store of two or more cookies renders as its first pair, `;`, and the rest after a
      blank. */
  lemma RenderCons(cs: seq<Cookie>, lead: string)
    requires |cs| >= 2
    ensures lead + Render(cs) == (lead + cs[0].name + "=" + cs[0].value) + [';'] + (" " + Render(cs[1..]))
  {
    var p := Pairs(cs);
    assert Pairs(cs[1..]) == p[1..];
    assert Render(cs) == p[0] + "; " + Render(cs[1..]);
  }

  /** The cookie store of one page, behind `document.cookie`. */
  class Jar {

    var cookies: seq<Cookie>

    predicate Valid()
      reads this
    {
      WellFormed(cookies)
    }

    constructor (initial: seq<Cookie>)
      requires WellFormed(initial)
      ensures Valid() && cookies == initial
    {
      cookies := initial;
    }

    /** Reading `document.cookie`. */
    function DocumentCookie(): string
      reads this
    {
      Render(cookies)
    }

    /** The value the request's `Cookie` header carries for `name` (the header the server
        parses is the same store). */
    function Get(name: string): Option<string>
      reads this
    {
      Lookup(cookies, name)
    }

    /** Assigning `name=value;expires=...` to `document.cookie`. */
    method Write(name: string, value: string, expires: int, now: int)
      requires Valid() && IsName(name) && IsValue(value)
      modifies this
      ensures Valid()
      ensures cookies == Store(old(cookies), name, value, expires, now)
    {
      StoreWellFormed(cookies, name, value, expires, now);
      cookies := Store(cookies, name, value, expires, now);
    }
  }

  /** What a client-side operation does outside the cookie store, in the order it does it. */
  datatype Effect =
    /** `window.dispatchEvent(new CustomEvent(name, { detail }))` */
    | Dispatch(name: string, detail: Value)
    /** An async `<script src=...>` added to the document. */
    | AppendScript(src: string)
    /** `window.dataLayer.push(entry)` */
    | DataLayerPush(entry: Value)
    /** A call of `window.gtag(...)`, `window.fbq(...)` or `window.va(...)`. */
    | GtagCall(args: seq<Value>)
    | FbqCall(args: seq<Value>)
    | VaCall(args: seq<Value>)
    /** A request sent with `fetch`; its outcome is never read by the core. */
    | Fetch(url: string, verb: string, body: Option<Value>)
    /** Assigning `window.location.href`. */
    | Navigate(url: string)
    /** `window.location.replace(url)`: the same load, without a history entry. */
    | ReplaceLocation(url: string)

  /** The browser window: its cookie store, whether each tracker global is defined, and
      the log of effects. */
  class Window {

    const jar: Jar
    var gtag: bool
    var fbq: bool
    var va: bool
    var googleTagManager: bool
    var effects: seq<Effect>

    constructor (jar: Jar, gtag: bool, fbq: bool, va: bool, googleTagManager: bool)
      ensures this.jar == jar && this.gtag == gtag && this.fbq == fbq && this.va == va
      ensures this.googleTagManager == googleTagManager && effects == []
    {
      this.jar := jar;
      this.gtag := gtag;
      this.fbq := fbq;
      this.va := va;
      this.googleTagManager := googleTagManager;
      effects := [];
    }
  }
}

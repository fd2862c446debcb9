/** The server side of a request as the route handlers and the proxy see it: the request
    headers, the JSON responses they build and the header fallbacks they read. */
module Http {

  import opened Wrappers
  import opened Values
  import opened Browser

  /** Request headers by lower-case name (`Headers.get` is case-insensitive). */
  type Headers = map<string, string>

  /** `headers.get(name)` */
  function Header(h: Headers, name: string): Option<string> {
    if name in h then Some(h[name]) else None
  }

  /** `headers.get(a) || headers.get(b) || ...`: the first header present and not empty. */
  function FirstHeader(h: Headers, names: seq<string>): (r: Option<string>)
    ensures r.None? <==> forall i :: 0 <= i < |names| ==> !IsSet(Header(h, names[i]))
    ensures r.Some? ==> IsSet(r) && exists i ::
      && 0 <= i < |names| && Header(h, names[i]) == r
      && forall j :: 0 <= j < i ==> !IsSet(Header(h, names[j]))
    decreases |names|
  {
    if |names| == 0 then None
    else if IsSet(Header(h, names[0])) then Header(h, names[0])
    else
      var r := FirstHeader(h, names[1..]);
      assert forall i :: 1 <= i <= |names[1..]| ==> names[1..][i - 1] == names[i];
      r
  }

  /** A response: its status, its JSON body and the headers set on it. */
  datatype Response = Response(status: nat, body: Value, headers: map<string, string>)

  /** `NextResponse.json(body, { status })` */
  function Json(body: Value, status: nat): Response {
    Response(status, body, map[])
  }
}

/** The HTTP surface the routes see: what a `fetch` gave back, query and
    form parameters as ordered key/value lists, JSON responses, and a
    redirect response with its cookie jar (Next.js's `NextResponse`). */
module Http {
  import opened Common

  /** The outcome of a `fetch` followed by reading its body: either the
      server answered (with its status, status text and body text, and the
      parsed JSON when the body parsed), or something threw on the way. */
  datatype Upstream<D> =
    | Answered(status: int, statusText: string, bodyText: string, json: Option<D>)
    | FetchThrew

  /** `response.ok`: the status is in the 200-299 range. */
  predicate IsOk(status: int) {
    200 <= status <= 299
  }

  /** One `key=value` pair of a query string or a form-encoded body;
      percent-encoding is not modelled. */
  datatype Param = Param(key: string, value: string)

  /** `URLSearchParams.get(key)`: the value of the first pair with that key. */
  function Lookup(params: seq<Param>, key: string): (r: Option<string>)
    ensures r.None? <==> forall i :: 0 <= i < |params| ==> params[i].key != key
    ensures forall i :: (0 <= i < |params| && params[i].key == key &&
                         forall j :: 0 <= j < i ==> params[j].key != key) ==> r == Some(params[i].value)
    decreases |params|
  {
    if |params| == 0 then None
    else if params[0].key == key then Some(params[0].value)
    else
      var r := Lookup(params[1..], key);
      assert forall i :: 1 <= i < |params| ==> params[1..][i - 1] == params[i];
      r
  }

  function Keys(params: seq<Param>): (ks: seq<string>)
    ensures |ks| == |params|
    ensures forall i :: 0 <= i < |params| ==> ks[i] == params[i].key
  {
    seq(|params|, i requires 0 <= i < |params| => params[i].key)
  }

  /** A JSON response: `NextResponse.json(body, { status })`. */
  datatype JsonResponse<B> = JsonResponse(status: int, body: B)

  datatype SameSite = Lax | Strict | NoRestriction

  /** A `Set-Cookie` as `response.cookies.set(name, value, options)` makes it. */
  datatype Cookie = Cookie(
    name: string,
    value: string,
    maxAge: int,
    path: string,
    httpOnly: bool,
    secure: bool,
    sameSite: SameSite)

  ghost predicate UniqueNames(jar: seq<Cookie>) {
    forall i, j :: 0 <= i < j < |jar| ==> jar[i].name != jar[j].name
  }

  /** The jar after setting `c`: a cookie of the same name is replaced in
      place, otherwise `c` is added at the end. */
  function SetCookieIn(jar: seq<Cookie>, c: Cookie): (r: seq<Cookie>)
    decreases |jar|
  {
    if |jar| == 0 then [c]
    else if jar[0].name == c.name then [c] + jar[1..]
    else [jar[0]] + SetCookieIn(jar[1..], c)
  }

  /** Setting `c` adds `c`, keeps every cookie of another name, and brings
      in nothing else. */
  lemma {:induction false} SetCookieInMembers(jar: seq<Cookie>, c: Cookie)
    ensures var r := SetCookieIn(jar, c);
      && c in r
      && (forall x :: x in jar && x.name != c.name ==> x in r)
      && (forall x :: x in r ==> x == c || x in jar)
    decreases |jar|
  {
    if |jar| > 0 {
      SetCookieInMembers(jar[1..], c);
      assert jar == [jar[0]] + jar[1..];
    }
  }

  lemma UniqueTail(jar: seq<Cookie>)
    requires UniqueNames(jar) && |jar| > 0
    ensures UniqueNames(jar[1..])
    ensures forall x :: x in jar[1..] ==> x.name != jar[0].name
  {
    var tail := jar[1..];
    forall i, j | 0 <= i < j < |tail| ensures tail[i].name != tail[j].name {
      assert tail[i] == jar[i + 1] && tail[j] == jar[j + 1];
    }
    forall x | x in tail ensures x.name != jar[0].name {
      var k :| 0 <= k < |tail| && tail[k] == x;
      assert jar[k + 1] == x;
    }
  }

  lemma UniqueCons(x: Cookie, tail: seq<Cookie>)
    requires UniqueNames(tail)
    requires forall y :: y in tail ==> y.name != x.name
    ensures UniqueNames([x] + tail)
  {
    var r := [x] + tail;
    forall i, j | 0 <= i < j < |r| ensures r[i].name != r[j].name {
      assert r[j] == tail[j - 1];
      if i > 0 { assert r[i] == tail[i - 1]; }
    }
  }

  /** Setting a cookie in a jar whose names are unique keeps them unique,
      so exactly `c` is left under its name. */
  lemma {:induction false} SetCookieInUnique(jar: seq<Cookie>, c: Cookie)
    requires UniqueNames(jar)
    ensures UniqueNames(SetCookieIn(jar, c))
    ensures forall x :: x in SetCookieIn(jar, c) && x.name == c.name ==> x == c
    decreases |jar|
  {
    if |jar| > 0 {
      var tail := jar[1..];
      UniqueTail(jar);
      if jar[0].name == c.name {
        UniqueCons(c, tail);
      } else {
        SetCookieInUnique(tail, c);
        SetCookieInMembers(tail, c);
        UniqueCons(jar[0], SetCookieIn(tail, c));
      }
    }
  }

  /** `NextResponse.redirect(target)`: the redirect target is fixed when the
      response is made; its cookie jar is then filled by `Set`. */
  class RedirectResponse {
    const location: string
    var cookies: seq<Cookie>

    /** The jar holds at most one cookie of each name. */
    ghost predicate Valid()
      reads this
    {
      UniqueNames(cookies)
    }

    constructor (location: string)
      ensures this.location == location && cookies == []
      ensures Valid()
    {
      this.location := location;
      cookies := [];
    }

    /** `response.cookies.set(...)`: afterwards `c` is the only cookie of
        its name. */
    method Set(c: Cookie)
      requires Valid()
      modifies this
      ensures cookies == SetCookieIn(old(cookies), c)
      ensures Valid()
      ensures forall x :: x in cookies && x.name == c.name ==> x == c
    {
      SetCookieInUnique(cookies, c);
      cookies := SetCookieIn(cookies, c);
    }
  }
}

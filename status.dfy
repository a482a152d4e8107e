/** src/app/api/spotify/status/route.ts: whether the browser holds a
    Spotify access token cookie. */
module StatusRoute {
  import opened Http
  import Spotify
  import TokenCookies

  /** `request.cookies.has("spotify_access_token")`: presence only, an empty
      value counts. */
  predicate Connected(cookieNames: set<string>) {
    TokenCookies.AccessCookieName in cookieNames
  }

  function Names(jar: seq<Cookie>): set<string> {
    set k | 0 <= k < |jar| :: jar[k].name
  }

  /** A browser that took the cookies of a granted callback is reported as
      connected, secure cookies or not. */
  lemma ConnectedAfterGrant(tokens: Spotify.TokenSet, secure: bool, earlier: set<string>)
    ensures Connected(Names(TokenCookies.Issued(tokens, secure)) + earlier)
  {
    TokenCookies.IssuedCookies(tokens, secure);
    var jar := TokenCookies.Issued(tokens, secure);
    assert jar[0].name in Names(jar);
  }
}

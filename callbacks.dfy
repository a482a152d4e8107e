/** The two cookies both Spotify callback routes set after a successful
    code exchange. */
module TokenCookies {
  import opened Http
  import Spotify

  const AccessCookieName: string := "spotify_access_token"
  const RefreshCookieName: string := "spotify_refresh_token"

  /** 30 days, in seconds. */
  const RefreshMaxAge: int := 30 * 24 * 60 * 60

  function AccessCookie(tokens: Spotify.TokenSet, secure: bool): Cookie {
    Cookie(AccessCookieName, tokens.accessToken, tokens.expiresIn, "/", true, secure, Lax)
  }

  function RefreshCookie(tokens: Spotify.TokenSet, secure: bool): Cookie {
    Cookie(RefreshCookieName, tokens.refreshToken, RefreshMaxAge, "/", true, secure, Lax)
  }

  /** The jar after the access cookie and then the refresh cookie are set
      on a fresh response. */
  function Issued(tokens: Spotify.TokenSet, secure: bool): seq<Cookie> {
    SetCookieIn(SetCookieIn([], AccessCookie(tokens, secure)), RefreshCookie(tokens, secure))
  }

  /** Exactly two cookies: the access token living `expires_in` seconds
      and the refresh token living 30 days (2592000 seconds), both on path
      "/", HTTP-only, same-site lax, and secure as asked. */
  lemma IssuedCookies(tokens: Spotify.TokenSet, secure: bool)
    ensures var jar := Issued(tokens, secure);
      && |jar| == 2
      && jar[0].name == "spotify_access_token" && jar[0].value == tokens.accessToken
      && jar[0].maxAge == tokens.expiresIn
      && jar[1].name == "spotify_refresh_token" && jar[1].value == tokens.refreshToken
      && jar[1].maxAge == 2592000
      && forall k :: 0 <= k < 2 ==>
           jar[k].path == "/" && jar[k].httpOnly && jar[k].secure == secure && jar[k].sameSite == Lax
  {
    var access, refresh := AccessCookie(tokens, secure), RefreshCookie(tokens, secure);
    assert access.name[8] == 'a' && refresh.name[8] == 'r';
    assert SetCookieIn([], access) == [access];
    assert SetCookieIn([access], refresh) == [access] + SetCookieIn([], refresh);
  }
}

/** src/app/api/auth/callback/spotify/route.ts: the callback that knows
    about the Warpcast mini-app.

    `Handle` and `Get` send the token request as the route does, resolved
    with no window. `CorrectedHandle` is the same route sending the
    corrected exchange of the Spotify module, resolved at the location the
    callback arrived at. */
module AuthCallbackRoute {
  import opened Common
  import opened Http
  import Spotify
  import TokenCookies

  const WarpcastMiniAppUrl: string :=
    "https://warpcast.com/~/developers/mini-apps/preview?url=https://proof-of-vibes.vercel.app"
  const AccessDeniedTarget: string := "/connect-spotify?error=access_denied"
  const TokenErrorTarget: string := "/connect-spotify?error=token_error"
  const ProfileTarget: string := "/profile"

  /** The location the callback request arrived at (which only the
      corrected route uses), its query parameters and its Referer header. */
  datatype CallbackRequest = CallbackRequest(
    arrivedAt: Spotify.BrowserLocation,
    code: Option<string>, error: Option<string>, state: Option<string>, referer: Option<string>)

  /** `(referer || "").includes("warpcast.com")`. */
  function IsFromWarpcast(referer: Option<string>): (b: bool)
    ensures b <==> exists i :: OccursAt(OrDefault(referer, ""), "warpcast.com", i)
  {
    Contains(OrDefault(referer, ""), "warpcast.com")
  }

  /** A missing referer counts as "", which is not from Warpcast. */
  lemma MissingRefererNotWarpcast()
    ensures !IsFromWarpcast(None)
  {
  }

  /** `error || !code`. */
  predicate Denied(req: CallbackRequest) {
    IsTruthy(req.error) || !IsTruthy(req.code)
  }

  /** What the route does: where it redirects, the cookies it sets, and the
      token request it sent (None when it never called the exchange). */
  datatype CallbackReply = CallbackReply(target: string, cookies: seq<Cookie>, exchange: Option<Spotify.TokenRequest>)

  function Handle(config: Spotify.Config, req: CallbackRequest, tokenReply: Upstream<Spotify.TokenSet>): CallbackReply {
    var fromWarpcast := IsFromWarpcast(req.referer);
    if Denied(req) then
      CallbackReply(if fromWarpcast then WarpcastMiniAppUrl else AccessDeniedTarget, [], None)
    else
      var exchange := Some(Spotify.CodeExchangeRequest(config, None, req.code.value));
      match Spotify.ExchangeOutcome(tokenReply)
      case Returned(tokens) =>
        CallbackReply(if fromWarpcast then WarpcastMiniAppUrl else ProfileTarget,
                      TokenCookies.Issued(tokens, true), exchange)
      case Thrown(_) =>
        CallbackReply(if fromWarpcast then WarpcastMiniAppUrl + "?error=token_error" else TokenErrorTarget,
                      [], exchange)
  }

  /** GET: the token endpoint's reply is an input; it is consulted only
      when the route exchanges the code. */
  method Get(config: Spotify.Config, req: CallbackRequest, tokenReply: Upstream<Spotify.TokenSet>)
    returns (response: RedirectResponse, exchange: Option<Spotify.TokenRequest>)
    ensures fresh(response) && response.Valid()
    ensures CallbackReply(response.location, response.cookies, exchange) == Handle(config, req, tokenReply)
  {
    var referer := OrDefault(req.referer, "");
    var isFromWarpcast := Contains(referer, "warpcast.com");
    if IsTruthy(req.error) || !IsTruthy(req.code) {
      var errorRedirectUrl := if isFromWarpcast then WarpcastMiniAppUrl else AccessDeniedTarget;
      response := new RedirectResponse(errorRedirectUrl);
      exchange := None;
      return;
    }
    exchange := Some(Spotify.CodeExchangeRequest(config, None, req.code.value));
    var outcome := Spotify.ExchangeOutcome(tokenReply);
    if outcome.Thrown? {
      var errorRedirectUrl := if isFromWarpcast then WarpcastMiniAppUrl + "?error=token_error" else TokenErrorTarget;
      response := new RedirectResponse(errorRedirectUrl);
      return;
    }
    var successRedirectUrl := ProfileTarget;
    if isFromWarpcast {
      successRedirectUrl := WarpcastMiniAppUrl;
    }
    response := new RedirectResponse(successRedirectUrl);
    response.Set(TokenCookies.AccessCookie(outcome.payload, true));
    response.Set(TokenCookies.RefreshCookie(outcome.payload, true));
  }

  /** A user-denied or code-less callback never reaches the token endpoint
      and sets no cookie, even when a code came along with the error. */
  lemma DeniedCallback(config: Spotify.Config, req: CallbackRequest, tokenReply: Upstream<Spotify.TokenSet>)
    requires Denied(req)
    ensures var r := Handle(config, req, tokenReply);
      && r.exchange == None && r.cookies == []
      && r.target == if IsFromWarpcast(req.referer) then WarpcastMiniAppUrl else AccessDeniedTarget
  {
  }

  /** The exchange is called exactly when the callback is not denied, as an
      authorization-code grant carrying the callback's code. */
  lemma ExchangeCalledIffNotDenied(config: Spotify.Config, req: CallbackRequest, tokenReply: Upstream<Spotify.TokenSet>)
    ensures var x := Handle(config, req, tokenReply).exchange;
      && (x.Some? <==> !Denied(req))
      && (x.Some? ==>
            Lookup(x.value.body, "grant_type") == Some("authorization_code")
            && Lookup(x.value.body, "code") == req.code)
  {
    if !Denied(req) {
      Spotify.CodeExchangeRequestFields(config, None, req.code.value);
    }
  }

  /** `state` is read but changes nothing. */
  lemma StateIgnored(config: Spotify.Config, req: CallbackRequest, state: Option<string>,
                     tokenReply: Upstream<Spotify.TokenSet>)
    ensures Handle(config, req.(state := state), tokenReply) == Handle(config, req, tokenReply)
  {
  }

  /** As written, when Spotify sends the browser back to the redirect URI
      of an authorization request, the exchange repeats that redirect URI
      exactly when the authorization was not made from local development. */
  lemma {:induction false} ExchangeRepeatsRedirectUriIffNotLocal(
    config: Spotify.Config, req: CallbackRequest, tokenReply: Upstream<Spotify.TokenSet>,
    window: Option<Spotify.BrowserLocation>, draws: seq<int>)
    requires Spotify.ValidDraws(draws, Spotify.StateLength) && !Denied(req)
    requires Spotify.Origin(req.arrivedAt) + Spotify.AuthCallbackPath == Spotify.ResolveRedirectUri(window)
    ensures var authorize := Spotify.AuthorizationRequest(
        config.clientId, Spotify.ResolveRedirectUri(window), Spotify.RandomText(draws, Spotify.StateLength));
      var x := Handle(config, req, tokenReply).exchange;
      && x.Some?
      && ((Lookup(x.value.body, "redirect_uri") == Lookup(authorize.query, "redirect_uri")) <==>
          Spotify.Origin(req.arrivedAt) != Spotify.LocalOrigin)
  {
    var o := Spotify.Origin(req.arrivedAt);
    Spotify.ResolveRedirectUriCases(window);
    Spotify.RegisteredCandidate(o, Spotify.AuthCallbackPath);
    Spotify.RegisteredAsOriginPlusPath();
    Spotify.AuthorizationRequestFields(
      config.clientId, Spotify.ResolveRedirectUri(window), Spotify.RandomText(draws, Spotify.StateLength));
    Spotify.CodeExchangeRequestFields(config, None, req.code.value);
    assert |Spotify.RegisteredRedirectUris[0]| != |Spotify.RegisteredRedirectUris[1]|;
  }

  /** Concretely: a callback that comes back to local development, after
      an authorization made there, exchanges the code with the ngrok URI,
      not the local one the authorization carried. */
  lemma LocalCallbackMismatch(config: Spotify.Config, req: CallbackRequest, tokenReply: Upstream<Spotify.TokenSet>)
    requires req.arrivedAt == Spotify.LocalDevelopment && !Denied(req)
    ensures var x := Handle(config, req, tokenReply).exchange;
      x.Some? && Lookup(x.value.body, "redirect_uri") == Some(Spotify.RegisteredRedirectUris[0])
      && Spotify.ResolveRedirectUri(Some(req.arrivedAt)) == Spotify.RegisteredRedirectUris[1]
      && Spotify.RegisteredRedirectUris[0] != Spotify.RegisteredRedirectUris[1]
  {
    Spotify.LocalDevelopmentMismatch(config, req.code.value);
  }

  /** The route with the corrected exchange: the same redirect and cookies,
      and the token request resolved at the callback's own location. */
  function CorrectedHandle(config: Spotify.Config, req: CallbackRequest, tokenReply: Upstream<Spotify.TokenSet>): (r: CallbackReply)
    ensures r.target == Handle(config, req, tokenReply).target
    ensures r.cookies == Handle(config, req, tokenReply).cookies
    ensures r.exchange.Some? <==> !Denied(req)
    ensures r.exchange.Some? ==> Lookup(r.exchange.value.body, "code") == req.code
  {
    var asWritten := Handle(config, req, tokenReply);
    if Denied(req) then asWritten
    else asWritten.(exchange := Some(Spotify.CorrectedCodeExchangeRequest(config, req.arrivedAt, req.code.value)))
  }

  /** With the corrected exchange, a callback at the redirect URI of an
      authorization request repeats exactly that redirect URI, wherever the
      browser was, as section 4.1.3 of RFC 6749 requires. */
  lemma {:induction false} ExchangeRepeatsRedirectUri(
    config: Spotify.Config, req: CallbackRequest, tokenReply: Upstream<Spotify.TokenSet>,
    window: Option<Spotify.BrowserLocation>, draws: seq<int>)
    requires Spotify.ValidDraws(draws, Spotify.StateLength) && !Denied(req)
    requires Spotify.Origin(req.arrivedAt) + Spotify.AuthCallbackPath == Spotify.ResolveRedirectUri(window)
    ensures var authorize := Spotify.AuthorizationRequest(
        config.clientId, Spotify.ResolveRedirectUri(window), Spotify.RandomText(draws, Spotify.StateLength));
      var x := CorrectedHandle(config, req, tokenReply).exchange;
      x.Some? && Lookup(x.value.body, "redirect_uri") == Lookup(authorize.query, "redirect_uri")
  {
    Spotify.CorrectedExchangeMatchesAuthorization(config, window, req.arrivedAt, req.code.value, draws);
  }

  /** After a granted exchange: the profile page, or back to the mini-app
      when the browser came from Warpcast, with the two token cookies, both
      secure. */
  lemma GrantedCallback(config: Spotify.Config, req: CallbackRequest, tokenReply: Upstream<Spotify.TokenSet>)
    requires !Denied(req) && Spotify.ExchangeOutcome(tokenReply).Returned?
    ensures var r := Handle(config, req, tokenReply);
      && r.target == (if IsFromWarpcast(req.referer) then WarpcastMiniAppUrl else ProfileTarget)
      && r.cookies == TokenCookies.Issued(Spotify.ExchangeOutcome(tokenReply).payload, true)
      && forall k :: 0 <= k < |r.cookies| ==> r.cookies[k].secure
  {
    TokenCookies.IssuedCookies(Spotify.ExchangeOutcome(tokenReply).payload, true);
  }

  /** A failed exchange (a non-ok status included) redirects to the token
      error target and sets no cookie. */
  lemma FailedExchangeCallback(config: Spotify.Config, req: CallbackRequest, tokenReply: Upstream<Spotify.TokenSet>)
    requires !Denied(req) && Spotify.ExchangeOutcome(tokenReply).Thrown?
    ensures var r := Handle(config, req, tokenReply);
      && r.cookies == []
      && r.target == (if IsFromWarpcast(req.referer) then WarpcastMiniAppUrl + "?error=token_error"
                      else TokenErrorTarget)
  {
  }

  /** Cookies are set exactly when the token endpoint answered ok with a
      token set. */
  lemma CookiesIffGranted(config: Spotify.Config, req: CallbackRequest, tokenReply: Upstream<Spotify.TokenSet>)
    ensures |Handle(config, req, tokenReply).cookies| > 0 <==>
      !Denied(req) && tokenReply.Answered? && IsOk(tokenReply.status) && tokenReply.json.Some?
  {
    if !Denied(req) && Spotify.ExchangeOutcome(tokenReply).Returned? {
      TokenCookies.IssuedCookies(Spotify.ExchangeOutcome(tokenReply).payload, true);
    }
  }
}

/** src/app/api/spotify/callback/route.ts: the plain callback, whose cookies
    are secure only in production. Its token request is resolved with no
    window, as in the other callback. */
module SpotifyCallbackRoute {
  import opened Common
  import opened Http
  import Spotify
  import TokenCookies
  import AuthCallbackRoute

  const AccessDeniedTarget: string := "/connect-spotify?error=access_denied"
  const TokenErrorTarget: string := "/connect-spotify?error=token_error"
  const ProfileTarget: string := "/profile"

  datatype CallbackRequest = CallbackRequest(code: Option<string>, error: Option<string>, state: Option<string>)

  predicate Denied(req: CallbackRequest) {
    IsTruthy(req.error) || !IsTruthy(req.code)
  }

  datatype CallbackReply = CallbackReply(target: string, cookies: seq<Cookie>, exchange: Option<Spotify.TokenRequest>)

  /** `process.env.NODE_ENV === "production"`. */
  predicate SecureCookies(nodeEnv: string) {
    nodeEnv == "production"
  }

  function Handle(config: Spotify.Config, req: CallbackRequest, nodeEnv: string,
                  tokenReply: Upstream<Spotify.TokenSet>): CallbackReply {
    if Denied(req) then CallbackReply(AccessDeniedTarget, [], None)
    else
      var exchange := Some(Spotify.CodeExchangeRequest(config, None, req.code.value));
      match Spotify.ExchangeOutcome(tokenReply)
      case Returned(tokens) => CallbackReply(ProfileTarget, TokenCookies.Issued(tokens, SecureCookies(nodeEnv)), exchange)
      case Thrown(_) => CallbackReply(TokenErrorTarget, [], exchange)
  }

  method Get(config: Spotify.Config, req: CallbackRequest, nodeEnv: string, tokenReply: Upstream<Spotify.TokenSet>)
    returns (response: RedirectResponse, exchange: Option<Spotify.TokenRequest>)
    ensures fresh(response) && response.Valid()
    ensures CallbackReply(response.location, response.cookies, exchange) == Handle(config, req, nodeEnv, tokenReply)
  {
    if IsTruthy(req.error) || !IsTruthy(req.code) {
      response := new RedirectResponse(AccessDeniedTarget);
      exchange := None;
      return;
    }
    exchange := Some(Spotify.CodeExchangeRequest(config, None, req.code.value));
    var outcome := Spotify.ExchangeOutcome(tokenReply);
    if outcome.Thrown? {
      response := new RedirectResponse(TokenErrorTarget);
      return;
    }
    response := new RedirectResponse(ProfileTarget);
    response.Set(TokenCookies.AccessCookie(outcome.payload, nodeEnv == "production"));
    response.Set(TokenCookies.RefreshCookie(outcome.payload, nodeEnv == "production"));
  }

  /** A denied or code-less callback redirects to the access-denied page
      with no cookie and no exchange. */
  lemma DeniedCallback(config: Spotify.Config, req: CallbackRequest, nodeEnv: string, tokenReply: Upstream<Spotify.TokenSet>)
    requires Denied(req)
    ensures Handle(config, req, nodeEnv, tokenReply) == CallbackReply(AccessDeniedTarget, [], None)
  {
  }

  /** On a granted exchange: "/profile" with both token cookies, each
      secure exactly in production. */
  lemma GrantedCallback(config: Spotify.Config, req: CallbackRequest, nodeEnv: string, tokenReply: Upstream<Spotify.TokenSet>)
    requires !Denied(req) && Spotify.ExchangeOutcome(tokenReply).Returned?
    ensures var r := Handle(config, req, nodeEnv, tokenReply);
      && r.target == ProfileTarget && r.exchange.Some?
      && r.cookies == TokenCookies.Issued(Spotify.ExchangeOutcome(tokenReply).payload, SecureCookies(nodeEnv))
      && |r.cookies| == 2
      && forall k :: 0 <= k < 2 ==> (r.cookies[k].secure <==> nodeEnv == "production")
  {
    TokenCookies.IssuedCookies(Spotify.ExchangeOutcome(tokenReply).payload, SecureCookies(nodeEnv));
  }

  /** A failed exchange redirects to the token-error page with no cookie. */
  lemma FailedExchangeCallback(config: Spotify.Config, req: CallbackRequest, nodeEnv: string,
                               tokenReply: Upstream<Spotify.TokenSet>)
    requires !Denied(req) && Spotify.ExchangeOutcome(tokenReply).Thrown?
    ensures var r := Handle(config, req, nodeEnv, tokenReply);
      r.target == TokenErrorTarget && r.cookies == [] && r.exchange.Some?
  {
  }

  /** `state` is read but changes nothing, and the exchange carries the
      callback's code. */
  lemma StateIgnored(config: Spotify.Config, req: CallbackRequest, state: Option<string>, nodeEnv: string,
                     tokenReply: Upstream<Spotify.TokenSet>)
    ensures Handle(config, req.(state := state), nodeEnv, tokenReply) == Handle(config, req, nodeEnv, tokenReply)
    ensures var x := Handle(config, req, nodeEnv, tokenReply).exchange;
      x.Some? ==> Lookup(x.value.body, "code") == req.code
  {
    if !Denied(req) {
      Spotify.CodeExchangeRequestFields(config, None, req.code.value);
    }
  }

  /** In production the two callbacks agree on everything for a browser
      that did not come from Warpcast, wherever the callback arrived. */
  lemma AgreesWithAuthCallback(config: Spotify.Config, req: CallbackRequest, nodeEnv: string,
                               arrivedAt: Spotify.BrowserLocation, referer: Option<string>,
                               tokenReply: Upstream<Spotify.TokenSet>)
    requires nodeEnv == "production" && !AuthCallbackRoute.IsFromWarpcast(referer)
    ensures var plain := Handle(config, req, nodeEnv, tokenReply);
      var mini := AuthCallbackRoute.Handle(
        config, AuthCallbackRoute.CallbackRequest(arrivedAt, req.code, req.error, req.state, referer), tokenReply);
      plain == CallbackReply(mini.target, mini.cookies, mini.exchange)
  {
  }
}

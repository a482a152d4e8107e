/** The Spotify side of the authorization-code grant of RFC 6749, as
    src/lib/spotify.ts builds it: which registered redirect URI to use, the
    random `state` value, the authorization request (section 4.1.1 of
    RFC 6749), the access-token request (section 4.1.3) and the refresh
    request (section 6), both authenticated with HTTP Basic client
    credentials (section 2.3.1), and the tables that translate the UI's time
    frames into Spotify's time ranges and labels. */
module Spotify {
  import opened Common
  import opened Http

  // ---- redirect URI resolution ----

  /** The redirect URIs registered with Spotify, in their declared order;
      the first is the default. */
  const RegisteredRedirectUris: seq<string> := [
    "https://thescoho.ngrok.app/api/auth/callback/spotify",
    "http://localhost:3000/api/auth/callback/spotify",
    "https://thescoho.ngrok.app/api/spotify/callback",
    "http://localhost:3000/api/spotify/callback"
  ]

  const AuthCallbackPath: string := "/api/auth/callback/spotify"
  const SpotifyCallbackPath: string := "/api/spotify/callback"
  const NgrokOrigin: string := "https://thescoho.ngrok.app"
  const LocalOrigin: string := "http://localhost:3000"

  /** `window.location` in a browser (`protocol` includes its colon, as
      in "https:"; `port` is "" when the URL has none). When the code runs
      on the server there is no window: that is `None`. */
  datatype BrowserLocation = BrowserLocation(protocol: string, hostname: string, port: string)

  /** `protocol//hostname[:port]`, with the port part only for a non-empty port. */
  function Origin(loc: BrowserLocation): string {
    loc.protocol + "//" + loc.hostname + (if loc.port != "" then ":" + loc.port else "")
  }

  /** The two callback URIs the current host could be registered under, the
      first preferred. */
  function CandidateUris(loc: BrowserLocation): seq<string> {
    [Origin(loc) + AuthCallbackPath, Origin(loc) + SpotifyCallbackPath]
  }

  /** `candidates.find(uri => REGISTERED_REDIRECT_URIS.includes(uri))`. */
  function FirstRegistered(candidates: seq<string>): (r: Option<string>)
    ensures r.Some? ==> r.value in candidates && r.value in RegisteredRedirectUris
    ensures r.Some? ==> exists k :: 0 <= k < |candidates| && candidates[k] == r.value &&
                          forall j :: 0 <= j < k ==> candidates[j] !in RegisteredRedirectUris
    ensures r.None? <==> forall j :: 0 <= j < |candidates| ==> candidates[j] !in RegisteredRedirectUris
    decreases |candidates|
  {
    if |candidates| == 0 then None
    else if candidates[0] in RegisteredRedirectUris then Some(candidates[0])
    else
      var r := FirstRegistered(candidates[1..]);
      assert forall j :: 1 <= j < |candidates| ==> candidates[j] == candidates[1..][j - 1];
      assert r.Some? ==> exists k :: 0 <= k < |candidates| && candidates[k] == r.value &&
                          forall j :: 0 <= j < k ==> candidates[j] !in RegisteredRedirectUris by {
        if r.Some? {
          var k :| 0 <= k < |candidates[1..]| && candidates[1..][k] == r.value &&
                   forall j :: 0 <= j < k ==> candidates[1..][j] !in RegisteredRedirectUris;
          assert candidates[k + 1] == r.value;
          assert forall j :: 0 <= j < k + 1 ==> candidates[j] !in RegisteredRedirectUris by {
            forall j | 0 <= j < k + 1 ensures candidates[j] !in RegisteredRedirectUris {
              if j > 0 { assert candidates[j] == candidates[1..][j - 1]; }
            }
          }
        }
      }
      r
  }

  /** getAppropriateRedirectUri: the first registered candidate for the
      browser's location, or the first registered URI when there is no
      window or no candidate is registered. */
  function ResolveRedirectUri(window: Option<BrowserLocation>): (uri: string)
    ensures uri in RegisteredRedirectUris
    ensures window.None? ==> uri == RegisteredRedirectUris[0]
  {
    match window
    case None => RegisteredRedirectUris[0]
    case Some(loc) =>
      match FirstRegistered(CandidateUris(loc))
      case Some(matched) => matched
      case None => RegisteredRedirectUris[0]
  }

  lemma EqualSuffixCancels(a: string, b: string, p: string)
    requires a + p == b + p
    ensures a == b
  {
    assert |a| == |b|;
    assert a == (a + p)[..|a|] && b == (b + p)[..|b|];
  }

  lemma DifferentLastCharDiffers(a: string, p: string, b: string, q: string)
    requires |p| > 0 && |q| > 0 && p[|p| - 1] != q[|q| - 1]
    ensures a + p != b + q
  {
    assert (a + p)[|a + p| - 1] == p[|p| - 1];
    assert (b + q)[|b + q| - 1] == q[|q| - 1];
  }

  // One literal equality per lemma: proved together they exceed the
  // solver's budget.
  lemma RegisteredNgrokAuth() ensures RegisteredRedirectUris[0] == NgrokOrigin + AuthCallbackPath {}
  lemma RegisteredLocalAuth() ensures RegisteredRedirectUris[1] == LocalOrigin + AuthCallbackPath {}
  lemma RegisteredNgrokAlt() ensures RegisteredRedirectUris[2] == NgrokOrigin + SpotifyCallbackPath {}
  lemma RegisteredLocalAlt() ensures RegisteredRedirectUris[3] == LocalOrigin + SpotifyCallbackPath {}

  /** Each registered URI is one of the two origins followed by one of the
      two callback paths. */
  lemma RegisteredAsOriginPlusPath()
    ensures RegisteredRedirectUris[0] == NgrokOrigin + AuthCallbackPath
    ensures RegisteredRedirectUris[1] == LocalOrigin + AuthCallbackPath
    ensures RegisteredRedirectUris[2] == NgrokOrigin + SpotifyCallbackPath
    ensures RegisteredRedirectUris[3] == LocalOrigin + SpotifyCallbackPath
  {
    RegisteredNgrokAuth();
    RegisteredLocalAuth();
    RegisteredNgrokAlt();
    RegisteredLocalAlt();
  }

  /** An origin followed by a callback path is registered exactly when the
      origin is the ngrok tunnel or local development. */
  lemma {:induction false} RegisteredCandidate(origin: string, path: string)
    requires path == AuthCallbackPath || path == SpotifyCallbackPath
    ensures origin + path in RegisteredRedirectUris <==> origin == NgrokOrigin || origin == LocalOrigin
  {
    RegisteredAsOriginPlusPath();
    var other := if path == AuthCallbackPath then SpotifyCallbackPath else AuthCallbackPath;
    assert path[|path| - 1] != other[|other| - 1];
    DifferentLastCharDiffers(origin, path, NgrokOrigin, other);
    DifferentLastCharDiffers(origin, path, LocalOrigin, other);
    if origin + path == NgrokOrigin + path {
      EqualSuffixCancels(origin, NgrokOrigin, path);
    }
    if origin + path == LocalOrigin + path {
      EqualSuffixCancels(origin, LocalOrigin, path);
    }
  }

  /** What the resolver amounts to: only a browser at http://localhost:3000
      gets the local-development URI; every other browser location, and
      every call without a window, gets the ngrok URI. Neither
      /api/spotify/callback URI is ever chosen. */
  lemma {:induction false} ResolveRedirectUriCases(window: Option<BrowserLocation>)
    ensures ResolveRedirectUri(window) ==
      if window.Some? && Origin(window.value) == LocalOrigin
      then RegisteredRedirectUris[1] else RegisteredRedirectUris[0]
    ensures ResolveRedirectUri(window) != RegisteredRedirectUris[2]
    ensures ResolveRedirectUri(window) != RegisteredRedirectUris[3]
  {
    RegisteredAsOriginPlusPath();
    if window.Some? {
      var o := Origin(window.value);
      RegisteredCandidate(o, AuthCallbackPath);
      RegisteredCandidate(o, SpotifyCallbackPath);
      var c := CandidateUris(window.value);
      if o == NgrokOrigin || o == LocalOrigin {
        assert FirstRegistered(c) == Some(c[0]);
      } else {
        assert FirstRegistered(c[1..][1..]) == None;
        assert FirstRegistered(c) == None;
      }
    }
  }

  // ---- the random state value ----

  /** The `possible` characters of generateRandomString, in its order. */
  const Alphabet: string := "ABCDEFGHIJKLMNOPQRSTUVWXYZabcdefghijklmnopqrstuvwxyz0123456789"

  const Capitals: string := "ABCDEFGHIJKLMNOPQRSTUVWXYZ"
  const SmallLetters: string := "abcdefghijklmnopqrstuvwxyz"
  const Digits: string := "0123456789"

  /** The alphabet is the three blocks, one after the other. */
  lemma AlphabetIsBlocks()
    ensures Alphabet == Capitals + SmallLetters + Digits
  {
  }

  /** Each block lists its characters in code-point order from its first. */
  lemma CapitalsInOrder()
    ensures forall k :: 0 <= k < 26 ==> Capitals[k] == ('A' as int + k) as char
  {
  }

  lemma SmallLettersInOrder()
    ensures forall k :: 0 <= k < 26 ==> SmallLetters[k] == ('a' as int + k) as char
  {
  }

  lemma DigitsInOrder()
    ensures forall k :: 0 <= k < 10 ==> Digits[k] == ('0' as int + k) as char
  {
  }

  /** The alphabet is the 26 capitals, then the 26 small letters, then the
      10 digits, each block in code-point order. */
  lemma AlphabetInOrder()
    ensures |Alphabet| == 62
    ensures forall k :: 0 <= k < 62 ==> Alphabet[k] == AlphabetChar(k)
  {
    AlphabetIsBlocks();
    CapitalsInOrder();
    SmallLettersInOrder();
    DigitsInOrder();
    forall k | 0 <= k < 62 ensures Alphabet[k] == AlphabetChar(k) {
      if k < 26 {
        assert Alphabet[k] == Capitals[k];
      } else if k < 52 {
        assert Alphabet[k] == SmallLetters[k - 26];
      } else {
        assert Alphabet[k] == Digits[k - 52];
      }
    }
  }

  function AlphabetChar(k: nat): char
    requires k < 62
  {
    if k < 26 then ('A' as int + k) as char
    else if k < 52 then ('a' as int + (k - 26)) as char
    else ('0' as int + (k - 52)) as char
  }

  predicate IsAlphanumeric(ch: char) {
    ('A' <= ch <= 'Z') || ('a' <= ch <= 'z') || ('0' <= ch <= '9')
  }

  /** The alphabet holds exactly the 62 ASCII letters and digits. */
  lemma AlphabetIsAlphanumerics()
    ensures |Alphabet| == 62
    ensures forall k :: 0 <= k < |Alphabet| ==> IsAlphanumeric(Alphabet[k])
    ensures forall ch :: IsAlphanumeric(ch) ==> ch in Alphabet
  {
    AlphabetInOrder();
    forall ch | IsAlphanumeric(ch) ensures ch in Alphabet {
      if 'A' <= ch <= 'Z' {
        assert Alphabet[ch as int - 'A' as int] == ch;
      } else if 'a' <= ch <= 'z' {
        assert Alphabet[26 + ch as int - 'a' as int] == ch;
      } else {
        assert Alphabet[52 + ch as int - '0' as int] == ch;
      }
    }
  }

  /** `Math.floor(Math.random() * possible.length)`, drawn once per
      character: the model takes the draws as an input. */
  predicate ValidDraws(draws: seq<int>, count: int) {
    count <= |draws| && forall k :: 0 <= k < |draws| ==> 0 <= draws[k] < |Alphabet|
  }

  /** The string the draws spell out, one alphabet character per draw. */
  function RandomText(draws: seq<int>, length: nat): (s: string)
    requires ValidDraws(draws, length)
  {
    seq(length, k requires 0 <= k < length => Alphabet[draws[k]])
  }

  /** Whatever the draws, the random text has the asked-for length and
      consists of letters and digits only. */
  lemma RandomTextShape(draws: seq<int>, length: nat)
    requires ValidDraws(draws, length)
    ensures |RandomText(draws, length)| == length
    ensures forall k :: 0 <= k < length ==> RandomText(draws, length)[k] == Alphabet[draws[k]]
    ensures forall k :: 0 <= k < length ==> IsAlphanumeric(RandomText(draws, length)[k])
  {
    AlphabetIsAlphanumerics();
  }

  /** generateRandomString: a negative length gives "". */
  method GenerateRandomString(length: int, draws: seq<int>) returns (text: string)
    requires ValidDraws(draws, length)
    ensures text == RandomText(draws, if length < 0 then 0 else length)
  {
    text := "";
    var i := 0;
    while i < length
      invariant 0 <= i <= |draws| && (length >= 0 ==> i <= length) && (length < 0 ==> i == 0)
      invariant text == RandomText(draws, i)
    {
      assert RandomText(draws, i + 1) == RandomText(draws, i) + [Alphabet[draws[i]]];
      text := text + [Alphabet[draws[i]]];
      i := i + 1;
    }
  }

  // ---- the authorization request ----

  /** The configured client credentials (`process.env.… || ''`). */
  datatype Config = Config(clientId: string, clientSecret: string)

  /** A URL with its query as an ordered parameter list. */
  datatype Url = Url(base: string, query: seq<Param>)

  const AuthorizeEndpoint: string := "https://accounts.spotify.com/authorize"
  const Scope: string := "user-read-private user-read-email user-top-read"
  const StateLength: nat := 16

  function AuthorizationRequest(clientId: string, redirectUri: string, state: string): Url {
    Url(AuthorizeEndpoint, [
      Param("response_type", "code"),
      Param("client_id", clientId),
      Param("scope", Scope),
      Param("redirect_uri", redirectUri),
      Param("state", state)])
  }

  /** The authorization request carries exactly the five parameters of
      section 4.1.1 of RFC 6749, in this order. */
  lemma AuthorizationRequestFields(clientId: string, redirectUri: string, state: string)
    ensures var u := AuthorizationRequest(clientId, redirectUri, state);
      && u.base == AuthorizeEndpoint
      && Keys(u.query) == ["response_type", "client_id", "scope", "redirect_uri", "state"]
      && Lookup(u.query, "response_type") == Some("code")
      && Lookup(u.query, "client_id") == Some(clientId)
      && Lookup(u.query, "scope") == Some(Scope)
      && Lookup(u.query, "redirect_uri") == Some(redirectUri)
      && Lookup(u.query, "state") == Some(state)
  {
    var q := AuthorizationRequest(clientId, redirectUri, state).query;
    assert q[2] == Param("scope", Scope);
    assert q[3] == Param("redirect_uri", redirectUri);
    assert "state"[1] != "scope"[1];
    assert q[4] == Param("state", state);
  }

  /** getSpotifyAuthUrl: response_type, client_id, scope, the resolved
      redirect URI and a fresh 16-character alphanumeric state. */
  method GetSpotifyAuthUrl(config: Config, window: Option<BrowserLocation>, draws: seq<int>)
    returns (url: Url)
    requires ValidDraws(draws, StateLength)
    ensures url == AuthorizationRequest(config.clientId, ResolveRedirectUri(window), RandomText(draws, StateLength))
    ensures Lookup(url.query, "redirect_uri") == Some(ResolveRedirectUri(window))
    ensures Lookup(url.query, "response_type") == Some("code")
    ensures var state := Lookup(url.query, "state");
      && state.Some? && |state.value| == StateLength
      && forall k :: 0 <= k < |state.value| ==> IsAlphanumeric(state.value[k])
  {
    var state := GenerateRandomString(StateLength, draws);
    RandomTextShape(draws, StateLength);
    var redirectUri := ResolveRedirectUri(window);
    url := AuthorizationRequest(config.clientId, redirectUri, state);
    AuthorizationRequestFields(config.clientId, redirectUri, state);
  }

  // ---- the token requests ----

  const TokenEndpoint: string := "https://accounts.spotify.com/api/token"

  /** A POST to the token endpoint; `basicCredentials` is the
      `client_id:client_secret` pair that the Authorization header carries
      base64-encoded. */
  datatype TokenRequest = TokenRequest(
    endpoint: string,
    httpMethod: string,
    contentType: string,
    basicCredentials: string,
    body: seq<Param>)

  function TokenRequestWith(config: Config, body: seq<Param>): TokenRequest {
    TokenRequest(TokenEndpoint, "POST", "application/x-www-form-urlencoded",
                 config.clientId + ":" + config.clientSecret, body)
  }

  /** getSpotifyToken's request: the code and the redirect URI resolved
      where the exchange runs. Nothing but the code comes from the caller. */
  function CodeExchangeRequest(config: Config, window: Option<BrowserLocation>, code: string): TokenRequest {
    TokenRequestWith(config, [
      Param("grant_type", "authorization_code"),
      Param("code", code),
      Param("redirect_uri", ResolveRedirectUri(window))])
  }

  /** refreshSpotifyToken's request: no redirect URI. */
  function RefreshRequest(config: Config, refreshToken: string): TokenRequest {
    TokenRequestWith(config, [
      Param("grant_type", "refresh_token"),
      Param("refresh_token", refreshToken)])
  }

  lemma CodeExchangeRequestFields(config: Config, window: Option<BrowserLocation>, code: string)
    ensures var r := CodeExchangeRequest(config, window, code);
      && r.endpoint == TokenEndpoint && r.httpMethod == "POST"
      && r.basicCredentials == config.clientId + ":" + config.clientSecret
      && Keys(r.body) == ["grant_type", "code", "redirect_uri"]
      && Lookup(r.body, "grant_type") == Some("authorization_code")
      && Lookup(r.body, "code") == Some(code)
      && Lookup(r.body, "redirect_uri") == Some(ResolveRedirectUri(window))
  {
    var r := CodeExchangeRequest(config, window, code);
    assert r.body[2] == Param("redirect_uri", ResolveRedirectUri(window));
  }

  lemma RefreshRequestFields(config: Config, refreshToken: string)
    ensures var r := RefreshRequest(config, refreshToken);
      && r.endpoint == TokenEndpoint && r.httpMethod == "POST"
      && r.basicCredentials == config.clientId + ":" + config.clientSecret
      && Keys(r.body) == ["grant_type", "refresh_token"]
      && Lookup(r.body, "grant_type") == Some("refresh_token")
      && Lookup(r.body, "refresh_token") == Some(refreshToken)
      && Lookup(r.body, "redirect_uri") == None
  {
  }

  /** The token endpoint's JSON on a code exchange. */
  datatype TokenSet = TokenSet(accessToken: string, tokenType: string, expiresIn: int, refreshToken: string)

  /** The token endpoint's JSON on a refresh. */
  datatype RefreshedToken = RefreshedToken(accessToken: string, tokenType: string, expiresIn: int)

  /** Why a call to Spotify threw: a non-ok status (the message the code
      builds), the fetch itself failing, or a body that is not JSON. */
  datatype CallError = RequestFailed(message: string) | Unreachable | MalformedBody

  datatype CallResult<T> = Returned(payload: T) | Thrown(error: CallError)

  /** The `!response.ok` check and `response.json()` shared by the two
      token calls and fetchSpotifyApi, which differ only in the message. */
  function CallOutcome<T>(reply: Upstream<T>, failurePrefix: string): (r: CallResult<T>)
    ensures r.Returned? <==> reply.Answered? && IsOk(reply.status) && reply.json.Some?
    ensures r.Returned? ==> r.payload == reply.json.value
    ensures reply.Answered? && !IsOk(reply.status) ==>
              r == Thrown(RequestFailed(failurePrefix + reply.statusText))
  {
    match reply
    case FetchThrew => Thrown(Unreachable)
    case Answered(status, statusText, _, json) =>
      if !IsOk(status) then Thrown(RequestFailed(failurePrefix + statusText))
      else match json
        case None => Thrown(MalformedBody)
        case Some(t) => Returned(t)
  }

  function ExchangeOutcome(reply: Upstream<TokenSet>): CallResult<TokenSet> {
    CallOutcome(reply, "Failed to get token: ")
  }

  function RefreshOutcome(reply: Upstream<RefreshedToken>): CallResult<RefreshedToken> {
    CallOutcome(reply, "Failed to refresh token: ")
  }

  // ---- redirect URI agreement between the two requests ----

  /** Finding, as written: the exchange runs in a route handler, where
      there is no window, so it always sends the ngrok URI; an authorization
      request made from a browser at http://localhost:3000 carried the local
      URI instead, and section 4.1.3 of RFC 6749 requires the two to be
      identical. They agree exactly when the browser was not at
      http://localhost:3000. */
  lemma {:induction false} ServerExchangeRedirectMismatch(
    config: Config, loc: BrowserLocation, code: string, draws: seq<int>)
    requires ValidDraws(draws, StateLength)
    ensures var authorize := AuthorizationRequest(config.clientId, ResolveRedirectUri(Some(loc)), RandomText(draws, StateLength));
      var exchange := CodeExchangeRequest(config, None, code);
      ((Lookup(exchange.body, "redirect_uri") == Lookup(authorize.query, "redirect_uri")
       ) <==> Origin(loc) != LocalOrigin)
  {
    ResolveRedirectUriCases(Some(loc));
    AuthorizationRequestFields(config.clientId, ResolveRedirectUri(Some(loc)), RandomText(draws, StateLength));
    CodeExchangeRequestFields(config, None, code);
  }

  /** The browser location behind the mismatch. */
  const LocalDevelopment: BrowserLocation := BrowserLocation("http:", "localhost", "3000")

  lemma LocalDevelopmentOrigin()
    ensures Origin(LocalDevelopment) == LocalOrigin
  {
  }

  lemma LocalDevelopmentMismatch(config: Config, code: string)
    ensures Lookup(CodeExchangeRequest(config, None, code).body, "redirect_uri") ==
            Some(RegisteredRedirectUris[0])
    ensures ResolveRedirectUri(Some(LocalDevelopment)) == RegisteredRedirectUris[1]
    ensures RegisteredRedirectUris[0] != RegisteredRedirectUris[1]
  {
    LocalDevelopmentOrigin();
    ResolveRedirectUriCases(Some(LocalDevelopment));
    CodeExchangeRequestFields(config, None, code);
    RegisteredAsOriginPlusPath();
    assert |RegisteredRedirectUris[0]| != |RegisteredRedirectUris[1]|;
  }

  /** Corrected exchange: resolve the redirect URI against the location the
      callback request arrived at (the route always knows its own URL),
      instead of against a window that a route handler never has. */
  function CorrectedCodeExchangeRequest(config: Config, callbackAt: BrowserLocation, code: string): (r: TokenRequest)
    ensures Keys(r.body) == ["grant_type", "code", "redirect_uri"]
    ensures Lookup(r.body, "code") == Some(code)
    ensures Lookup(r.body, "redirect_uri") ==
      Some(if Origin(callbackAt) == LocalOrigin then RegisteredRedirectUris[1] else RegisteredRedirectUris[0])
  {
    CodeExchangeRequestFields(config, Some(callbackAt), code);
    ResolveRedirectUriCases(Some(callbackAt));
    CodeExchangeRequest(config, Some(callbackAt), code)
  }

  /** Spotify sends the browser back to the redirect URI of the
      authorization request; when the corrected exchange runs at that
      callback, it sends the very same redirect URI, wherever the browser
      was. */
  lemma {:induction false} CorrectedExchangeMatchesAuthorization(
    config: Config, window: Option<BrowserLocation>, callbackAt: BrowserLocation,
    code: string, draws: seq<int>)
    requires ValidDraws(draws, StateLength)
    requires Origin(callbackAt) + AuthCallbackPath == ResolveRedirectUri(window)
    ensures var authorize := AuthorizationRequest(config.clientId, ResolveRedirectUri(window), RandomText(draws, StateLength));
      Lookup(CorrectedCodeExchangeRequest(config, callbackAt, code).body, "redirect_uri") ==
      Lookup(authorize.query, "redirect_uri")
  {
    var o := Origin(callbackAt);
    RegisteredCandidate(o, AuthCallbackPath);
    ResolveRedirectUriCases(Some(callbackAt));
    RegisteredAsOriginPlusPath();
    assert ResolveRedirectUri(Some(callbackAt)) == ResolveRedirectUri(window);
    AuthorizationRequestFields(config.clientId, ResolveRedirectUri(window), RandomText(draws, StateLength));
    CodeExchangeRequestFields(config, Some(callbackAt), code);
  }

  // ---- the Web API ----

  const ApiBase: string := "https://api.spotify.com/v1"

  /** A request fetchSpotifyApi sends; `body` is None when the caller gave
      no (or a falsy) body. Its JSON serialisation is not modelled. */
  datatype ApiRequest<B> = ApiRequest(
    url: string, httpMethod: string, authorization: string, contentType: string, body: Option<B>)

  /** fetchSpotifyApi's request; an omitted `method` is "GET". */
  function SpotifyApiRequest<B>(endpoint: string, token: string, httpMethod: Option<string>, body: Option<B>): ApiRequest<B> {
    ApiRequest(ApiBase + endpoint, ValueOr(httpMethod, "GET"), "Bearer " + token, "application/json", body)
  }

  /** fetchSpotifyApi's handling of the reply. */
  function ApiOutcome<D>(reply: Upstream<D>): CallResult<D> {
    CallOutcome(reply, "Spotify API error: ")
  }

  /** The endpoint getUserTopTracks asks for; an omitted time range is
      "medium_term" and an omitted limit 5. The limit is given as the text
      the template literal renders it to. */
  function TopTracksEndpoint(timeRange: Option<string>, limitText: Option<string>): string {
    "/me/top/tracks?time_range=" + ValueOr(timeRange, "medium_term") + "&limit=" + ValueOr(limitText, "5")
  }

  function TopTracksRequest(token: string, timeRange: Option<string>, limitText: Option<string>): ApiRequest<()> {
    SpotifyApiRequest(TopTracksEndpoint(timeRange, limitText), token, None, None)
  }

  /** getUserProfile's request. */
  function ProfileRequest(token: string): ApiRequest<()> {
    SpotifyApiRequest("/me", token, None, None)
  }

  /** The top-tracks request is a GET with the bearer token on
      /me/top/tracks whose query, split at '&', is exactly the time range
      and the limit, when neither contains '&'. */
  lemma {:induction false} TopTracksRequestQuery(token: string, timeRange: string, limitText: string)
    requires FreeOf(timeRange, '&') && FreeOf(limitText, '&')
    ensures var req := TopTracksRequest(token, Some(timeRange), Some(limitText));
      && req.httpMethod == "GET" && req.authorization == "Bearer " + token && req.body == None
      && req.url == ApiBase + "/me/top/tracks?" + Join(["time_range=" + timeRange, "limit=" + limitText], "&")
      && SplitOn(Join(["time_range=" + timeRange, "limit=" + limitText], "&"), '&')
           == ["time_range=" + timeRange, "limit=" + limitText]
  {
    var parts := ["time_range=" + timeRange, "limit=" + limitText];
    assert FreeOf("time_range=", '&');
    assert FreeOf("limit=", '&');
    FreeOfConcat("time_range=", timeRange, '&');
    FreeOfConcat("limit=", limitText, '&');
    assert Join(parts, "&") == parts[0] + "&" + Join(parts[1..], "&");
    assert Join(parts[1..], "&") == parts[1];
    SplitJoinRoundTrip(parts, '&');
  }

  /** Every Web API request is a GET with the bearer token unless told
      otherwise; omitting the time range and the limit is asking for
      "medium_term" and 5; the profile is /me. */
  lemma ApiRequestDefaults(token: string)
    ensures SpotifyApiRequest<()>("/me", token, None, None).httpMethod == "GET"
    ensures TopTracksRequest(token, None, None) == TopTracksRequest(token, Some("medium_term"), Some("5"))
    ensures ProfileRequest(token) == ApiRequest(ApiBase + "/me", "GET", "Bearer " + token, "application/json", None)
  {
  }

  /** A Web API call returns the parsed body exactly when the answer is ok
      and parses, and throws "Spotify API error: " and the status text on a
      non-ok answer. */
  lemma ApiOutcomeCases<D>(reply: Upstream<D>)
    ensures ApiOutcome(reply).Returned? <==> reply.Answered? && IsOk(reply.status) && reply.json.Some?
    ensures reply.Answered? && !IsOk(reply.status) ==>
      ApiOutcome(reply) == Thrown(RequestFailed("Spotify API error: " + reply.statusText))
  {
  }

  // ---- time frames, ranges and labels ----

  /** timeRangeMap. */
  const TimeRangeMap: map<string, string> :=
    map["week" := "short_term", "month" := "medium_term", "year" := "long_term"]

  const TimeRanges: set<string> := {"short_term", "medium_term", "long_term"}

  /** convertTimeFrameToRange: any value other than the three known time
      frames falls back to "short_term". */
  function ConvertTimeFrameToRange(timeFrame: string): (range: string)
    ensures range in TimeRanges
  {
    match timeFrame
    case "week" => "short_term"
    case "month" => "medium_term"
    case "year" => "long_term"
    case _ => "short_term"
  }

  /** The switch and the map agree on every key of the map, and the switch
      sends everything else to "short_term". */
  lemma ConvertAgreesWithTimeRangeMap(timeFrame: string)
    ensures timeFrame in TimeRangeMap ==> ConvertTimeFrameToRange(timeFrame) == TimeRangeMap[timeFrame]
    ensures timeFrame !in TimeRangeMap ==> ConvertTimeFrameToRange(timeFrame) == "short_term"
  {
  }

  /** formatTimeRange: the label names the range, and any range other
      than the three is labelled like short_term, "Last 4 Weeks". */
  function FormatTimeRange(range: string): (caption: string)
    ensures caption in {"Last 4 Weeks", "Last 6 Months", "All Time"}
    ensures caption == "Last 6 Months" <==> range == "medium_term"
    ensures caption == "All Time" <==> range == "long_term"
    ensures caption == "Last 4 Weeks" <==> range != "medium_term" && range != "long_term"
  {
    match range
    case "short_term" => "Last 4 Weeks"
    case "medium_term" => "Last 6 Months"
    case "long_term" => "All Time"
    case _ => "Last 4 Weeks"
  }

  /** The three ranges get three different labels, so a label names its
      range; the label of a UI time frame is that of its range. */
  lemma FormatTimeRangeLabels(a: string, b: string, timeFrame: string)
    requires a in TimeRanges && b in TimeRanges && a != b
    ensures FormatTimeRange(a) != FormatTimeRange(b)
    ensures FormatTimeRange(ConvertTimeFrameToRange(timeFrame)) ==
      if timeFrame == "month" then "Last 6 Months"
      else if timeFrame == "year" then "All Time"
      else "Last 4 Weeks"
  {
  }

  const DefaultRedirectUri: string := "http://localhost:3000/api/auth/callback/spotify"

  /** getSpotifyRedirectUri: the configured URI when it is non-empty,
      otherwise local development's URI, which is a registered one. */
  function GetSpotifyRedirectUri(configured: Option<string>): (uri: string)
    ensures IsTruthy(configured) ==> uri == configured.value
    ensures !IsTruthy(configured) ==> uri == RegisteredRedirectUris[1]
  {
    OrDefault(configured, DefaultRedirectUri)
  }
}

# proof-of-vibes, modelled in Dafny

proof-of-vibes is a Farcaster mini-app. A listener signs in with Farcaster and
connects a Spotify account. The app then shows the listener's top tracks and
Farcaster graph. This project models the core of that app in Dafny and proves
properties of the model:

- **Spotify library** (`spotify.dfy`, module `Spotify`). It covers how a
  registered redirect URI is picked and how the random `state` value is made.
  It builds the authorization request, the code exchange and the refresh
  request of the RFC 6749 authorization-code grant. It also covers the
  `!response.ok` handling shared by every Spotify call, the top-tracks and
  profile requests of the Web API, and the tables that map time frames to
  Spotify's time ranges and labels.
- **Spotify callbacks** (`callbacks.dfy`, modules `AuthCallbackRoute` and
  `SpotifyCallbackRoute`). This is the redirect decision, with the Warpcast
  case in the first module, and the token request the route sends as
  written. The two token cookies, built by `TokenCookies`, are set on a
  `Http.RedirectResponse` in two steps. `AuthCallbackRoute.CorrectedHandle`
  is the Warpcast-aware route with the corrected exchange of the finding.
- **Neynar routes** (`neynar.dfy`, modules `Neynar`, `UsersRoute` and
  `FollowersRoute`). This covers parameter validation, the fid filter, URL
  building, and how the upstream answer is passed back to the caller.
- **Top-tracks route** (`top_tracks.dfy`, module `TopTracksRoute`). This is
  the cookie gate, the parameter defaults, and the flattening of Spotify's
  track objects.
- **Status route** (`status.dfy`, module `StatusRoute`). This is the
  access-cookie presence check.
- **Feed component** (`farcaster_feed.dfy`, module `FarcasterFeed`). Its state
  is a class: the followers and following lists, their cursors, the two busy
  flags and the error. Each fetch is a method pair: what runs before the
  request goes out, and what runs once it has settled.
- **Sign-in button** (`sign_in.dfy`, module `SignInWithFarcaster`). It
  extracts the fid from the signed message. A class holds the flags and
  error of sign-in and sign-out.
- **Shared pieces** (`common.dfy`, `http.dfy`). These are JavaScript
  truthiness, `includes`, joining and splitting, decimal rendering with its
  round trip, query parameters, and the cookie jar.

Network results are inputs to the model. The answers the routes get from
Spotify and Neynar are `Http.Upstream`s: the server answered (with its
status, status text, body text and parsed JSON, if any), or the fetch threw.
The feed's own fetches go through `fetch(...).json()` inside a `try`, so
only whether they succeed matters: a page fetch settles as a
`FarcasterFeed.PageResult` (a page, or a failure), and fetchUsers as a
success flag. Other outcomes that arrive asynchronously are
inputs too: the CSRF token, the Farcaster SDK's sign-in and NextAuth's
sign-in. `Math.random` is a sequence of draws in `[0, 62)`. Some JavaScript
library behaviour is passed in as functions:

- `numeral` stands for `${Number(v)}`, and is None for NaN.
- `renderLimit` stands for `${parseInt(s, 10)}`.
- `encode` stands for `encodeURIComponent`.

Environment variables are parameters (`Config`, `apiKeyEnv`, `nodeEnv`).

The code does less than its comments and call sites suggest, and the model
follows the code:

- `state` is only a 16-character random string (src/lib/spotify.ts:94). It
  does not carry the redirect URI, and no callback uses it to choose the
  redirect URI.
- The Warpcast-aware callback passes `state` to `getSpotifyToken` with the
  comment that it ensures the correct redirect URI
  (src/app/api/auth/callback/spotify/route.ts:25-26). But `getSpotifyToken`
  takes only the code (src/lib/spotify.ts:119), so the second argument is
  ignored.
- The resolver's comments call the first registered URI the production
  default (src/lib/spotify.ts:39-42). The redirect URI is the first
  registered candidate for the browser's location.
  `Spotify.ResolveRedirectUriCases` proves what this amounts to: local
  development gets the local URI, and everything else gets the ngrok URI.

## Model

| member | source | states |
|---|---|---|
| Spotify.FirstRegistered | src/lib/spotify.ts:29-31 | the result is the first candidate that is a registered URI; it is None exactly when no candidate is registered |
| Spotify.ResolveRedirectUri | src/lib/spotify.ts:15-43 | the resolved redirect URI is always one of the registered URIs, and is the first one when there is no window |
| Spotify.RegisteredAsOriginPlusPath | src/lib/spotify.ts:7-12 | each registered URI is the ngrok or the local origin followed by one of the two callback paths |
| Spotify.RegisteredCandidate | src/lib/spotify.ts:23-31 | an origin followed by a callback path is registered iff the origin is the ngrok tunnel or local development |
| Spotify.ResolveRedirectUriCases | src/lib/spotify.ts:17-42 | only a browser whose `protocol//hostname[:port]` is http://localhost:3000 gets the local URI; every other location, and no window, gets the ngrok URI; neither /api/spotify/callback URI is ever chosen |
| Spotify.AlphabetInOrder | src/lib/spotify.ts:82 | the source's `possible` string has 62 characters: the capitals A-Z, then a-z, then 0-9, each block in code-point order |
| Spotify.AlphabetIsAlphanumerics | src/lib/spotify.ts:82 | a character is in the alphabet iff it is an ASCII letter or digit |
| Spotify.RandomTextShape | src/lib/spotify.ts:81-88 | a random text of length n has exactly n characters, each the alphabet character of the corresponding draw |
| Spotify.GenerateRandomString | src/lib/spotify.ts:81-88 | the loop appends one drawn character per iteration; it yields the random text of the given length, and of length 0 for a negative length |
| Spotify.AuthorizationRequestFields | src/lib/spotify.ts:105-113 | the authorize URL carries exactly response_type=code, client_id, the three scopes, redirect_uri and state, in that order |
| Spotify.GetSpotifyAuthUrl | src/lib/spotify.ts:93-114 | the auth URL uses the resolved redirect URI and a 16-character alphanumeric state |
| Spotify.CodeExchangeRequestFields | src/lib/spotify.ts:126-145 | the exchange is a Basic-authenticated POST whose body is exactly grant_type=authorization_code, the code and the resolved redirect URI |
| Spotify.RefreshRequestFields | src/lib/spotify.ts:162-174 | the refresh body is exactly grant_type=refresh_token and the refresh token, with no redirect_uri |
| Spotify.CallOutcome | src/lib/spotify.ts:147-151 | a call returns the parsed body iff the answer is ok and parses; a non-ok answer always throws the prefixed status text |
| Spotify.ServerExchangeRedirectMismatch | src/lib/spotify.ts:125-136 | as written, the exchange's redirect_uri equals the authorization request's iff the browser was not at http://localhost:3000 |
| Spotify.LocalDevelopmentMismatch | src/lib/spotify.ts:125-136 | concretely, for a browser at http://localhost:3000 the exchange sends the ngrok URI while authorization sent the local one |
| Spotify.CorrectedCodeExchangeRequest | src/lib/spotify.ts:125-136 | the corrected exchange sends the code and the redirect URI resolved at the callback's own location |
| Spotify.CorrectedExchangeMatchesAuthorization | src/lib/spotify.ts:125-136 | when the callback arrives at the authorization request's redirect URI, the corrected exchange repeats that URI |
| Spotify.ApiOutcomeCases | src/lib/spotify.ts:196-200 | a Web API call returns the body iff the answer is ok and parses, and otherwise throws "Spotify API error: " plus the status text |
| Spotify.TopTracksRequestQuery | src/lib/spotify.ts:206-208 | the top-tracks request is a bearer GET whose query splits back into exactly the time range and the limit |
| Spotify.ApiRequestDefaults | src/lib/spotify.ts:186-215 | omitted method, time range and limit default to GET, medium_term and 5; the profile request is a bearer GET of /me |
| Spotify.ConvertTimeFrameToRange | src/lib/spotify.ts:239-250 | every time frame maps to one of the three Spotify ranges |
| Spotify.ConvertAgreesWithTimeRangeMap | src/lib/spotify.ts:218-250 | the switch agrees with timeRangeMap on its three keys and sends every other value to short_term |
| Spotify.FormatTimeRange | src/lib/spotify.ts:225-236 | the label is "Last 6 Months" iff the range is medium_term, "All Time" iff long_term, and "Last 4 Weeks" for short_term and for every unknown range |
| Spotify.FormatTimeRangeLabels | src/lib/spotify.ts:225-236 | the three ranges get three different labels, and each UI time frame gets the label of its range |
| Spotify.GetSpotifyRedirectUri | src/lib/spotify.ts:253-256 | the configured URI when non-empty, otherwise the registered local-development URI |
| TokenCookies.IssuedCookies | src/app/api/auth/callback/spotify/route.ts:41-56 | after the two sets, the jar holds exactly the access cookie (max-age expires_in) and the refresh cookie (30 days), both on "/", HTTP-only, same-site lax |
| Http.RedirectResponse.Set | src/app/api/auth/callback/spotify/route.ts:41-47 | setting a cookie replaces the one of the same name or adds it at the end; the jar keeps at most one cookie per name, and afterwards the set cookie is the only one of its name |
| Http.SetCookieInUnique | src/app/api/auth/callback/spotify/route.ts:41-56 | setting a cookie in a jar with unique names keeps the names unique and leaves exactly that cookie under its name |
| AuthCallbackRoute.IsFromWarpcast | src/app/api/auth/callback/spotify/route.ts:12-13 | true iff "warpcast.com" occurs in the referer, a missing referer being "" |
| AuthCallbackRoute.MissingRefererNotWarpcast | src/app/api/auth/callback/spotify/route.ts:12-13 | a request without a referer is not from Warpcast |
| AuthCallbackRoute.Get | src/app/api/auth/callback/spotify/route.ts:7-70 | the redirect, the cookies set step by step and the exchange sent (resolved with no window, as `getSpotifyToken(code)` does) are those of the route's decision; the jar keeps unique names |
| AuthCallbackRoute.DeniedCallback | src/app/api/auth/callback/spotify/route.ts:16-22 | an error or a missing code sets no cookie, makes no exchange, and redirects to the mini-app or the access-denied page |
| AuthCallbackRoute.ExchangeCalledIffNotDenied | src/app/api/auth/callback/spotify/route.ts:16-26 | the exchange is made iff the callback is not denied, as an authorization-code grant with the callback's code |
| AuthCallbackRoute.StateIgnored | src/app/api/auth/callback/spotify/route.ts:11-26 | changing `state` changes nothing the route does |
| AuthCallbackRoute.ExchangeRepeatsRedirectUriIffNotLocal | src/app/api/auth/callback/spotify/route.ts:25-26 | as written, the exchange after a callback at an authorization request's redirect URI repeats that URI iff the callback is not at local development |
| AuthCallbackRoute.LocalCallbackMismatch | src/app/api/auth/callback/spotify/route.ts:25-26 | as written, a callback at http://localhost:3000 exchanges the code with the ngrok URI although the local URI is the one resolved there |
| AuthCallbackRoute.CorrectedHandle | src/app/api/auth/callback/spotify/route.ts:25-26 | the corrected route keeps the route's redirect and cookies, and exchanges the callback's code exactly when it is not denied |
| AuthCallbackRoute.ExchangeRepeatsRedirectUri | src/app/api/auth/callback/spotify/route.ts:25-26 | with the corrected exchange, a callback at an authorization request's redirect URI repeats that URI, wherever the browser was |
| AuthCallbackRoute.GrantedCallback | src/app/api/auth/callback/spotify/route.ts:29-56 | a granted exchange redirects to /profile, or to the mini-app for Warpcast, with the two token cookies, all secure |
| AuthCallbackRoute.FailedExchangeCallback | src/app/api/auth/callback/spotify/route.ts:60-68 | a failed exchange redirects to the token-error target of its kind and sets no cookie |
| AuthCallbackRoute.CookiesIffGranted | src/app/api/auth/callback/spotify/route.ts:38-56 | cookies are set iff the callback is not denied and the token endpoint answered ok with a token set |
| SpotifyCallbackRoute.Get | src/app/api/spotify/callback/route.ts:4-46 | the redirect, the cookies set step by step and the exchange sent (resolved with no window) are those of the route's decision; the jar keeps unique names |
| SpotifyCallbackRoute.DeniedCallback | src/app/api/spotify/callback/route.ts:12-14 | an error or a missing code redirects to the access-denied page with no cookie and no exchange |
| SpotifyCallbackRoute.GrantedCallback | src/app/api/spotify/callback/route.ts:21-39 | a granted exchange redirects to /profile with the two token cookies, each secure iff NODE_ENV is "production" |
| SpotifyCallbackRoute.FailedExchangeCallback | src/app/api/spotify/callback/route.ts:43-46 | a failed exchange redirects to the token-error page with no cookie |
| SpotifyCallbackRoute.StateIgnored | src/app/api/spotify/callback/route.ts:9-18 | `state` changes nothing, and the exchange carries the callback's code |
| SpotifyCallbackRoute.AgreesWithAuthCallback | src/app/api/spotify/callback/route.ts:12-46 | in production, for every referer that is not from Warpcast and wherever the callback arrived, the two callbacks redirect alike, set the same cookies and send the same exchange |
| StatusRoute.ConnectedAfterGrant | src/app/api/spotify/status/route.ts:5-10 | a browser holding the cookies of a granted callback is reported as connected |
| Neynar.Relay | src/app/api/users/route.ts:42-58 | an ok, parsed answer is passed on with status 200; a non-ok answer keeps its status and gets the prefixed body text; a throw, or an unparsable body, is a 500 |
| UsersRoute.ValidFids | src/app/api/users/route.ts:75-77 | the valid fids are never more than the fids |
| UsersRoute.ValidFidsMembers | src/app/api/users/route.ts:75-79 | a rendering is kept iff some fid renders to it, so the list is empty iff no fid is a number |
| UsersRoute.ValidFidsAppend | src/app/api/users/route.ts:75-77 | filtering a concatenation is concatenating the filtered parts, so order is kept |
| UsersRoute.ValidFidsAllNumbers | src/app/api/users/route.ts:75-77 | when every fid is a number, every one is kept, in place |
| UsersRoute.BulkUrlRoundTrip | src/app/api/users/route.ts:87 | the fids joined into the bulk URL split back into the same list |
| UsersRoute.GetValidation | src/app/api/users/route.ts:11-29 | GET calls Neynar iff fid is non-empty and a number, then asks user/bulk for that one fid and relays the answer; otherwise it answers 400 with the message for its case |
| UsersRoute.PostValidation | src/app/api/users/route.ts:62-87 | POST calls Neynar iff `fids` is an array holding a number, and asks for exactly the valid fids; a missing, non-array or empty `fids` is the 400 "Invalid or missing fids parameter", a list without a number the 400 "No valid FIDs provided", and an unreadable body the 500 "Failed to fetch user data" |
| UsersRoute.GetAgreesWithPost | src/app/api/users/route.ts:28-29 | GET with one fid sends the request that POST sends for that one-element list, and differs only in messages |
| FollowersRoute.CursorExtendsFirstPage | src/app/api/followers/route.ts:31-36 | the URL with a non-empty cursor is the first-page URL followed by the encoded cursor; an empty cursor is no cursor |
| FollowersRoute.GetValidation | src/app/api/followers/route.ts:10-31 | Neynar is called iff fid is non-empty and a number, each rejection being a 400 with its message; the URL's limit is 20 when none or "" is given, and otherwise exactly the given limit; the answer is relayed with the route's messages |
| TopTracksRoute.ArtistNames | src/app/api/spotify/top-tracks/route.ts:31 | one name per artist, in order |
| TopTracksRoute.Summaries | src/app/api/spotify/top-tracks/route.ts:28-35 | one flattened track per input track, in order |
| TopTracksRoute.SummaryOfTrack | src/app/api/spotify/top-tracks/route.ts:28-35 | id, name and album name are copied; a single artist is its name; no image gives an empty cover; the time frame is the one written |
| TopTracksRoute.SummariesAppend | src/app/api/spotify/top-tracks/route.ts:28-35 | flattening a concatenation is concatenating the flattened parts |
| TopTracksRoute.NoTokenNoCall | src/app/api/spotify/top-tracks/route.ts:6-13 | no Spotify call is made iff the token cookie is absent or empty, which is a 401, not connected |
| TopTracksRoute.ConnectedIffAnswered | src/app/api/spotify/top-tracks/route.ts:20-47 | connected iff Spotify answered ok with a page, then a 200 whose tracks are the page's items summarised in order with the time frame; any other failure is a 500 |
| TopTracksRoute.RequestedRange | src/app/api/spotify/top-tracks/route.ts:17-34 | the request asks for the time frame's range (short_term when absent or unknown) and the limit (5 by default); each track echoes the raw time frame |
| FarcasterFeed.PageUsers | src/components/FarcasterFeed.tsx:102 | one user per page item, in order |
| FarcasterFeed.PageUsersAppend | src/components/FarcasterFeed.tsx:107-112 | the users of two concatenated pages are the users of each, concatenated |
| FarcasterFeed.FetchUrlParts | src/components/FarcasterFeed.tsx:88-91 | a later page's URL is the first page's URL followed by the encoded cursor, and its fid reads back as the user's fid |
| FarcasterFeed.Feed.constructor | src/components/FarcasterFeed.tsx:29-35 | empty lists, no cursors, flags down, no error |
| FarcasterFeed.Feed.StartFetch | src/components/FarcasterFeed.tsx:75-91 | without a fid nothing changes; otherwise it raises loadingMore with a cursor and loading without one, clears the error, and requests the page URL |
| FarcasterFeed.Feed.FinishFetch | src/components/FarcasterFeed.tsx:93-122 | a page replaces the list (first page) or is appended (later page) and sets the cursor to the next cursor or null; a failure sets the graph's error and keeps list and cursor; the raised flag comes down; the other graph is untouched; no stored cursor becomes "" |
| FarcasterFeed.Feed.Fetch | src/components/FarcasterFeed.tsx:75-122 | a complete fetch leaves its flag down, the list replaced, appended or kept according to the outcome, and after a page the cursor set to the next cursor or null |
| FarcasterFeed.Feed.StartLoadMore | src/components/FarcasterFeed.tsx:177-188 | a fetch is made only with a stored cursor, with exactly that cursor, and always as a load-more call |
| FarcasterFeed.Feed.StartFetchUsers | src/components/FarcasterFeed.tsx:41-49 | without a fid nothing changes; otherwise loading is raised, the error cleared, and [fid, 3, 2, 1] posted |
| FarcasterFeed.Feed.FinishFetchUsers | src/components/FarcasterFeed.tsx:59-71 | loading comes down; a failure sets "Failed to fetch users"; the lists are untouched |
| FarcasterFeed.StoredCursorTruthy | src/components/FarcasterFeed.tsx:105 | in a valid state a stored cursor is truthy iff it is present |
| FarcasterFeed.UsersRequestAllValid | src/components/FarcasterFeed.tsx:49 | the users route keeps all four fids the feed posts, in order |
| SignInWithFarcaster.FirstMatch | src/components/SignInWithFarcaster.tsx:63 | the result is the leftmost position where the prefix is followed by a digit; it is None iff there is none |
| SignInWithFarcaster.DigitRun | src/components/SignInWithFarcaster.tsx:63 | the longest run of digits at the front: a prefix of the text, all digits, and not followed by a digit |
| SignInWithFarcaster.MatchFid | src/components/SignInWithFarcaster.tsx:63-64 | a captured fid is a non-empty string of digits |
| SignInWithFarcaster.GuardRedundant | src/components/SignInWithFarcaster.tsx:62-64 | the `includes` guard never changes the extracted fid |
| SignInWithFarcaster.ExtractFidSpec | src/components/SignInWithFarcaster.tsx:61-66 | the fid is the maximal digit run after the first prefix followed by a digit; there is none iff no prefix is followed by a digit |
| SignInWithFarcaster.CredentialsFidSpec | src/components/SignInWithFarcaster.tsx:76 | the fid sent is the extracted one, else the SDK's number in decimal (which reads back as that number), and is absent only when both are |
| SignInWithFarcaster.SignInError | src/components/SignInWithFarcaster.tsx:36-97 | the message left by each failure kind: CSRF, rejected, generic, or "Authentication error: " plus NextAuth's error |
| SignInWithFarcaster.SignInSucceedsIff | src/components/SignInWithFarcaster.tsx:83-85 | no message is left iff every step went through and NextAuth reported no error |
| SignInWithFarcaster.ErrorIdentifiesStep | src/components/SignInWithFarcaster.tsx:47-93 | each fixed message appears iff its step failed, so the message names the failure |
| SignInWithFarcaster.SignInButton.constructor | src/components/SignInWithFarcaster.tsx:17-19 | both flags down, no error |
| SignInWithFarcaster.SignInButton.BeginSignIn | src/components/SignInWithFarcaster.tsx:39-40 | signingIn is raised and the error cleared |
| SignInWithFarcaster.SignInButton.FinishSignIn | src/components/SignInWithFarcaster.tsx:42-97 | the SDK gets the CSRF token as nonce only when there is one; NextAuth gets the credentials only after the SDK signed; the error is the one for the outcome; signingIn is down on every path |
| SignInWithFarcaster.SignInButton.HandleSignIn | src/components/SignInWithFarcaster.tsx:36-98 | the whole handler leaves exactly the outcome's error and signingIn down |
| SignInWithFarcaster.SignInButton.BeginSignOut | src/components/SignInWithFarcaster.tsx:100-103 | signingOut is raised, nothing else changes |
| SignInWithFarcaster.SignInButton.FinishSignOut | src/components/SignInWithFarcaster.tsx:104-108 | signingOut comes down whether sign-out threw or not, nothing else changes |

## Left out

- Network calls, console output, cookie storage and transport in the browser, and the internals of NextAuth and the Farcaster SDK are outside the model. Their outcomes are inputs.
- Percent-encoding is not modelled. `URLSearchParams` is an ordered list of key/value pairs, and `encodeURIComponent` is the parameter `encode`.
- `Buffer` base64 is not modelled. The Basic authorization header is the `client_id:client_secret` pair it encodes.
- `Number`, `parseInt` and how JavaScript renders numbers (exponent forms, `-0`, fractions) are not interpreted. They are the `numeral` and `renderLimit` parameters, and the model gives no other property of them.
- `new URL(target, request.url)` is not modelled. The redirect target is kept as the route writes it, not resolved against the request URL.
- `JSON.stringify` of a Web API request body is not modelled. The body is carried through as given.
- The shapes of Spotify's and Neynar's JSON are assumed to be as declared. A track without `artists` or `album`, which would throw inside the route's catch, is not modelled.
- Overlapping fetches are not modelled. This covers the three fetches the feed's effect starts at once, which share `loading`, and React's effect scheduling. Each handler runs its start and finish steps with nothing in between.
- JSX rendering is not modelled: the pages, the header, the button, the layout and the Open Graph image. The same goes for `src/lib/client-neynar.ts`, which only forwards to fetch.
- The `/api/following` route that the feed calls is not part of this model.
- Spotify.GenerateRandomString: it takes an integer length. A fractional length, for which the JavaScript loop runs up to the next integer, is not modelled.
- FarcasterFeed.Feed.FinishFetch: it requires a fid, because it models only the continuation of a fetch whose start found one.
- FarcasterFeed.Feed: the session's fid is a natural number, and its URL rendering is plain decimal. This matches JavaScript's `${fid}` only for non-negative safe integers.
- SignInWithFarcaster.CredentialsFid: the SDK's fid is taken to be a non-negative integer, so its `toString()` is plain decimal.

## Findings

| source | as written | input that shows it | evidently intended | confidence | as-written member | corrected member |
|---|---|---|---|---|---|---|
| src/lib/spotify.ts:125-136 | the code exchange runs in a route handler, where `window` is undefined, so it always sends `REGISTERED_REDIRECT_URIS[0]` as redirect_uri | a browser at http://localhost:3000 builds the authorize URL with http://localhost:3000/api/auth/callback/spotify; the exchange after the callback then sends https://thescoho.ngrok.app/api/auth/callback/spotify, which section 4.1.3 of RFC 6749 requires the server to reject | the exchange repeats the redirect URI of the authorization request, as the comment above the resolver call says | not executed | Spotify.ServerExchangeRedirectMismatch | Spotify.CorrectedCodeExchangeRequest |

The corrected exchange resolves the redirect URI at the location where the
callback request arrived. Both callback models send the exchange as written.
At route level, `AuthCallbackRoute.ExchangeRepeatsRedirectUriIffNotLocal` and
`AuthCallbackRoute.LocalCallbackMismatch` show the mismatch.
`AuthCallbackRoute.CorrectedHandle` is the route with the corrected exchange.
`Spotify.CorrectedExchangeMatchesAuthorization` and
`AuthCallbackRoute.ExchangeRepeatsRedirectUri` prove that the corrected
exchange repeats the authorization request's redirect URI.
`Spotify.LocalDevelopmentMismatch` states the concrete input.

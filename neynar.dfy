/** What the two Neynar-backed routes share: the API base, the request
    they send, and how they relay Neynar's answer to their caller. */
module Neynar {
  import opened Common
  import opened Http

  const ApiBase: string := "https://api.neynar.com/v2/farcaster"

  /** A GET to Neynar accepting JSON, with the `api_key` header. */
  datatype Request = Request(url: string, apiKey: string)

  /** The `api_key` header is NEYNAR_API_KEY, or "" when it is unset or
      empty. */
  function RequestTo(url: string, apiKeyEnv: Option<string>): Request {
    Request(url, OrDefault(apiKeyEnv, ""))
  }

  /** A route's JSON body: `{ error }`, or Neynar's own JSON passed on. */
  datatype Body<D> = Failure(error: string) | Data(data: D)

  /** What a route does: the response, and the request it sent to Neynar
      (None when it answered without calling Neynar). */
  datatype Reply<D> = Reply(response: JsonResponse<Body<D>>, sent: Option<Request>)

  function BadRequest<D>(message: string): JsonResponse<Body<D>> {
    JsonResponse(400, Failure(message))
  }

  /** The tail of each handler: a non-ok answer is passed on with its
      status and its body text after `failurePrefix`; an ok answer that
      parses is passed on with status 200; a fetch that throws, or a body
      that does not parse, ends in the catch block's 500. */
  function Relay<D>(answer: Upstream<D>, failurePrefix: string, catchMessage: string): (r: JsonResponse<Body<D>>)
    ensures r.body.Data? <==> answer.Answered? && IsOk(answer.status) && answer.json.Some?
    ensures r.body.Data? ==> r.status == 200 && r.body.data == answer.json.value
    ensures answer.Answered? && !IsOk(answer.status) ==>
              r == JsonResponse(answer.status, Failure(failurePrefix + answer.bodyText))
    ensures answer.FetchThrew? || (IsOk(answer.status) && answer.json.None?) ==>
              r == JsonResponse(500, Failure(catchMessage))
  {
    match answer
    case FetchThrew => JsonResponse(500, Failure(catchMessage))
    case Answered(status, _, bodyText, json) =>
      if !IsOk(status) then JsonResponse(status, Failure(failurePrefix + bodyText))
      else match json
        case None => JsonResponse(500, Failure(catchMessage))
        case Some(data) => JsonResponse(200, Data(data))
  }
}

/** src/app/api/users/route.ts: one user by `fid` (GET) or several by a
    JSON list of fids (POST), both through Neynar's user/bulk endpoint.

    `numeral(v)` stands for `${Number(v)}`: None when `Number(v)` is NaN,
    otherwise the text JavaScript renders the number to. */
module UsersRoute {
  import opened Common
  import opened Http
  import opened Neynar

  const BulkPath: string := "/user/bulk?fids="

  function BulkUrl(fids: seq<string>): string {
    ApiBase + BulkPath + Join(fids, ",")
  }

  /** The fids of a list that are numbers, as rendered, in their order:
      `fids.map(Number).filter(n => !isNaN(n))`. */
  function ValidFids<J>(fids: seq<J>, numeral: J -> Option<string>): (valid: seq<string>)
    ensures |valid| <= |fids|
    decreases |fids|
  {
    if |fids| == 0 then []
    else
      var rest := ValidFids(fids[1..], numeral);
      match numeral(fids[0])
      case None => rest
      case Some(n) => [n] + rest
  }

  /** A rendering is kept exactly when some fid renders to it, so nothing
      is kept exactly when no fid is a number. */
  lemma {:induction false} ValidFidsMembers<J>(fids: seq<J>, numeral: J -> Option<string>)
    ensures forall x :: x in ValidFids(fids, numeral) <==> exists i :: 0 <= i < |fids| && numeral(fids[i]) == Some(x)
    ensures |ValidFids(fids, numeral)| == 0 <==> forall i :: 0 <= i < |fids| ==> numeral(fids[i]).None?
    decreases |fids|
  {
    if |fids| > 0 {
      ValidFidsMembers(fids[1..], numeral);
      assert forall i :: 1 <= i < |fids| ==> fids[1..][i - 1] == fids[i];
      if numeral(fids[0]).Some? {
        assert numeral(fids[0]).value in ValidFids(fids, numeral);
      }
    }
  }

  /** Filtering a concatenation filters each part. */
  lemma {:induction false} ValidFidsAppend<J>(a: seq<J>, b: seq<J>, numeral: J -> Option<string>)
    ensures ValidFids(a + b, numeral) == ValidFids(a, numeral) + ValidFids(b, numeral)
    decreases |a|
  {
    if |a| > 0 {
      assert (a + b)[0] == a[0];
      assert (a + b)[1..] == a[1..] + b;
      ValidFidsAppend(a[1..], b, numeral);
      assert ValidFids(a + b, numeral) == ValidFids([a[0]], numeral) + ValidFids(a[1..] + b, numeral);
    } else {
      assert a + b == b;
    }
  }

  /** When every fid is a number, every fid is kept, in order. */
  lemma {:induction false} ValidFidsAllNumbers<J>(fids: seq<J>, numeral: J -> Option<string>)
    requires forall i :: 0 <= i < |fids| ==> numeral(fids[i]).Some?
    ensures |ValidFids(fids, numeral)| == |fids|
    ensures forall i :: 0 <= i < |fids| ==> ValidFids(fids, numeral)[i] == numeral(fids[i]).value
    decreases |fids|
  {
    if |fids| > 0 {
      assert forall i :: 1 <= i < |fids| ==> fids[1..][i - 1] == fids[i];
      ValidFidsAllNumbers(fids[1..], numeral);
    }
  }

  /** The fids in the bulk URL can be read back by splitting at ',' when no
      rendering contains one. */
  lemma BulkUrlRoundTrip(fids: seq<string>)
    requires |fids| > 0
    requires forall k :: 0 <= k < |fids| ==> FreeOf(fids[k], ',')
    ensures BulkUrl(fids)[..|ApiBase + BulkPath|] == ApiBase + BulkPath
    ensures SplitOn(BulkUrl(fids)[|ApiBase + BulkPath|..], ',') == fids
  {
    SplitJoinRoundTrip(fids, ',');
    assert BulkUrl(fids)[|ApiBase + BulkPath|..] == Join(fids, ",");
  }

  const CatchMessage: string := "Failed to fetch user data"

  /** GET /api/users?fid=... */
  function Get<D>(fid: Option<string>, numeral: string -> Option<string>, apiKeyEnv: Option<string>,
                  answer: Upstream<D>): Reply<D>
  {
    if !IsTruthy(fid) then Reply(BadRequest("Missing fid parameter"), None)
    else match numeral(fid.value)
      case None => Reply(BadRequest("Invalid fid format"), None)
      case Some(n) =>
        Reply(Relay(answer, "Failed to fetch user: ", CatchMessage), Some(RequestTo(ApiBase + BulkPath + n, apiKeyEnv)))
  }

  /** The JSON body of a POST, as far as the handler looks at it: unreadable
      (not JSON, or null, so that destructuring it throws), without a
      `fids` array (`fids` missing, falsy or not an array), or with one. */
  datatype PostBody<J> = Unreadable | WithoutFidsArray | WithFids(fids: seq<J>)

  /** POST /api/users with `{ fids: [...] }`. */
  function Post<J, D>(body: PostBody<J>, numeral: J -> Option<string>, apiKeyEnv: Option<string>,
                      answer: Upstream<D>): Reply<D>
  {
    match body
    case Unreadable => Reply(JsonResponse(500, Failure(CatchMessage)), None)
    case WithoutFidsArray => Reply(BadRequest("Invalid or missing fids parameter"), None)
    case WithFids(fids) =>
      if |fids| == 0 then Reply(BadRequest("Invalid or missing fids parameter"), None)
      else
        var valid := ValidFids(fids, numeral);
        if |valid| == 0 then Reply(BadRequest("No valid FIDs provided"), None)
        else Reply(Relay(answer, "Failed to fetch users: ", CatchMessage), Some(RequestTo(BulkUrl(valid), apiKeyEnv)))
  }

  /** GET calls Neynar exactly when `fid` is present, non-empty and a
      number, asking user/bulk for that one fid and relaying the answer;
      it rejects the other two cases with a 400 naming the problem. */
  lemma GetValidation<D>(fid: Option<string>, numeral: string -> Option<string>, apiKeyEnv: Option<string>,
                         answer: Upstream<D>)
    ensures var r := Get(fid, numeral, apiKeyEnv, answer);
      && (r.sent.Some? <==> IsTruthy(fid) && numeral(fid.value).Some?)
      && (!IsTruthy(fid) ==> r.response == JsonResponse(400, Failure("Missing fid parameter")))
      && (IsTruthy(fid) && numeral(fid.value).None? ==> r.response == JsonResponse(400, Failure("Invalid fid format")))
      && (r.sent.Some? ==>
            r.sent.value == RequestTo(ApiBase + "/user/bulk?fids=" + numeral(fid.value).value, apiKeyEnv)
            && r.response == Relay(answer, "Failed to fetch user: ", "Failed to fetch user data"))
  {
  }

  /** POST calls Neynar exactly when the body holds a fids array with at
      least one number, and then asks for exactly those numbers; a missing,
      non-array or empty `fids` is the first 400, a list without a number
      the second, and a body that cannot be read the catch block's 500. */
  lemma PostValidation<J, D>(body: PostBody<J>, numeral: J -> Option<string>, apiKeyEnv: Option<string>,
                             answer: Upstream<D>)
    ensures var r := Post(body, numeral, apiKeyEnv, answer);
      && (r.sent.Some? <==> body.WithFids? && exists i :: 0 <= i < |body.fids| && numeral(body.fids[i]).Some?)
      && (r.sent.Some? ==> r.sent.value.url == BulkUrl(ValidFids(body.fids, numeral)))
      && (body.WithFids? && |body.fids| > 0 && r.sent.None? ==>
            r.response == JsonResponse(400, Failure("No valid FIDs provided")))
      && (body.WithoutFidsArray? || (body.WithFids? && |body.fids| == 0) ==>
            r.response == JsonResponse(400, Failure("Invalid or missing fids parameter")))
      && (body.Unreadable? ==> r.response == JsonResponse(500, Failure("Failed to fetch user data")))
  {
    if body.WithFids? {
      ValidFidsMembers(body.fids, numeral);
    }
  }

  /** GET with one numeric fid sends the request POST sends for the list
      holding just that fid, and relays the answer the same way but for the
      failure message ("user" against "users"); a non-numeric fid is a 400
      from both, with different messages. */
  lemma GetAgreesWithPost<D>(fid: string, numeral: string -> Option<string>, apiKeyEnv: Option<string>,
                             answer: Upstream<D>)
    requires fid != ""
    ensures var g := Get(Some(fid), numeral, apiKeyEnv, answer);
      var p := Post(WithFids([fid]), numeral, apiKeyEnv, answer);
      && g.sent == p.sent
      && (numeral(fid).None? ==>
            g.response == JsonResponse(400, Failure("Invalid fid format"))
            && p.response == JsonResponse(400, Failure("No valid FIDs provided")))
      && (numeral(fid).Some? && answer.Answered? && !IsOk(answer.status) ==>
            g.response.body == Failure("Failed to fetch user: " + answer.bodyText)
            && p.response.body == Failure("Failed to fetch users: " + answer.bodyText)
            && g.response.status == p.response.status == answer.status)
      && (numeral(fid).Some? && (answer.FetchThrew? || IsOk(answer.status)) ==> g.response == p.response)
  {
    assert [fid][1..] == [];
    assert ValidFids([fid], numeral) == (if numeral(fid).Some? then [numeral(fid).value] else []);
    if numeral(fid).Some? {
      assert Join([numeral(fid).value], ",") == numeral(fid).value;
    }
  }
}

/** src/app/api/followers/route.ts: one page of a user's followers.

    `numeral` is as in the users route; `encode` stands for
    encodeURIComponent. */
module FollowersRoute {
  import opened Common
  import opened Http
  import opened Neynar

  const DefaultLimit: string := "20"

  /** The Neynar URL. The limit is passed through as given; the cursor is
      added only when it is non-empty. */
  function FollowersUrl(fidText: string, limit: string, cursor: Option<string>, encode: string -> string): string {
    var url := ApiBase + "/followers?fid=" + fidText + "&limit=" + limit;
    if IsTruthy(cursor) then url + "&cursor=" + encode(cursor.value) else url
  }

  /** GET /api/followers?fid=...&limit=...&cursor=... */
  function Get<D>(fid: Option<string>, limit: Option<string>, cursor: Option<string>,
                  numeral: string -> Option<string>, encode: string -> string,
                  apiKeyEnv: Option<string>, answer: Upstream<D>): Reply<D>
  {
    if !IsTruthy(fid) then Reply(BadRequest("Missing fid parameter"), None)
    else match numeral(fid.value)
      case None => Reply(BadRequest("Invalid fid format"), None)
      case Some(n) =>
        var url := FollowersUrl(n, OrDefault(limit, DefaultLimit), cursor, encode);
        Reply(Relay(answer, "Failed to fetch followers: ", "Failed to fetch followers data"),
              Some(RequestTo(url, apiKeyEnv)))
  }

  /** The request with a cursor is the first-page request followed by the
      encoded cursor; an empty cursor is no cursor. */
  lemma CursorExtendsFirstPage(fidText: string, limit: string, cursor: Option<string>, encode: string -> string)
    ensures IsTruthy(cursor) ==>
      FollowersUrl(fidText, limit, cursor, encode) == FollowersUrl(fidText, limit, None, encode) + "&cursor=" + encode(cursor.value)
    ensures !IsTruthy(cursor) ==> FollowersUrl(fidText, limit, cursor, encode) == FollowersUrl(fidText, limit, None, encode)
    ensures FollowersUrl(fidText, limit, None, encode) == ApiBase + "/followers?fid=" + fidText + "&limit=" + limit
  {
  }

  /** Neynar is called exactly when `fid` is present, non-empty and a
      number, with a limit of 20 unless a non-empty one is given, and its
      answer is relayed. */
  lemma GetValidation<D>(fid: Option<string>, limit: Option<string>, cursor: Option<string>,
                         numeral: string -> Option<string>, encode: string -> string,
                         apiKeyEnv: Option<string>, answer: Upstream<D>)
    ensures var r := Get(fid, limit, cursor, numeral, encode, apiKeyEnv, answer);
      && (r.sent.Some? <==> IsTruthy(fid) && numeral(fid.value).Some?)
      && (!IsTruthy(fid) ==> r.response == JsonResponse(400, Failure("Missing fid parameter")))
      && (IsTruthy(fid) && numeral(fid.value).None? ==> r.response == JsonResponse(400, Failure("Invalid fid format")))
      && (r.sent.Some? && !IsTruthy(limit) ==>
            r.sent.value.url == FollowersUrl(numeral(fid.value).value, "20", cursor, encode))
      && (r.sent.Some? && IsTruthy(limit) ==>
            r.sent.value.url == FollowersUrl(numeral(fid.value).value, limit.value, cursor, encode))
      && (r.sent.Some? ==>
            r.sent.value.apiKey == OrDefault(apiKeyEnv, "")
            && r.response == Relay(answer, "Failed to fetch followers: ", "Failed to fetch followers data"))
  {
  }
}

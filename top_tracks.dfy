/** src/app/api/spotify/top-tracks/route.ts: the signed-in listener's top
    tracks, flattened for the profile page. */
module TopTracksRoute {
  import opened Common
  import opened Http
  import Spotify

  /** The parts of Spotify's track objects the route reads. */
  datatype Artist = Artist(id: string, name: string)
  datatype Image = Image(url: Option<string>)
  datatype Album = Album(name: string, images: seq<Image>)
  datatype Track = Track(id: string, name: string, artists: seq<Artist>, album: Album)
  datatype TopTracksPage = TopTracksPage(items: seq<Track>)

  /** One flattened track as the route returns it. */
  datatype Summary = Summary(id: string, name: string, artist: string, album: string, albumArt: string, timeFrame: string)

  function ArtistNames(artists: seq<Artist>): (names: seq<string>)
    ensures |names| == |artists|
    ensures forall i :: 0 <= i < |artists| ==> names[i] == artists[i].name
    decreases |artists|
  {
    if |artists| == 0 then [] else [artists[0].name] + ArtistNames(artists[1..])
  }

  /** `album.images[0]?.url || ""`. */
  function AlbumArt(album: Album): string {
    if |album.images| == 0 then "" else OrDefault(album.images[0].url, "")
  }

  /** The artists' names joined with ", ", the album's first image (or ""),
      and the time frame as the caller wrote it. */
  function Summarize(track: Track, timeFrame: string): Summary {
    Summary(track.id, track.name, Join(ArtistNames(track.artists), ", "), track.album.name, AlbumArt(track.album), timeFrame)
  }

  /** `items.map(...)`: one summary per track, in order. */
  function Summaries(tracks: seq<Track>, timeFrame: string): (r: seq<Summary>)
    ensures |r| == |tracks|
    ensures forall i :: 0 <= i < |tracks| ==> r[i] == Summarize(tracks[i], timeFrame)
    decreases |tracks|
  {
    if |tracks| == 0 then [] else [Summarize(tracks[0], timeFrame)] + Summaries(tracks[1..], timeFrame)
  }

  /** What a summary keeps of its track: its id, name and album name, the
      only artist's name when there is one, "" when there is none, an empty
      cover when the album has no image. */
  lemma SummaryOfTrack(track: Track, timeFrame: string)
    ensures var s := Summarize(track, timeFrame);
      && s.id == track.id && s.name == track.name && s.album == track.album.name
      && s.timeFrame == timeFrame
      && (|track.artists| == 0 ==> s.artist == "")
      && (|track.artists| == 1 ==> s.artist == track.artists[0].name)
      && (|track.album.images| == 0 ==> s.albumArt == "")
      && (|track.album.images| > 0 && IsTruthy(track.album.images[0].url) ==> s.albumArt == track.album.images[0].url.value)
  {
  }

  /** The route's JSON body; `connected` tells the page whether Spotify is
      linked. */
  datatype Body = TopTracks(tracks: seq<Summary>, connected: bool) | Failure(error: string, connected: bool)

  /** The response, and the Web API request the route made (None when it
      answered without one). */
  datatype Reply = Reply(response: JsonResponse<Body>, sent: Option<Spotify.ApiRequest<()>>)

  /** GET /api/spotify/top-tracks?timeFrame=...&limit=... with the access
      token cookie. `renderLimit(s)` stands for `${parseInt(s, 10)}`
      ("NaN" included). */
  function Get(accessToken: Option<string>, timeFrame: Option<string>, limit: Option<string>,
               renderLimit: string -> string, answer: Upstream<TopTracksPage>): Reply
  {
    if !IsTruthy(accessToken) then
      Reply(JsonResponse(401, Failure("No Spotify access token found", false)), None)
    else
      var frame := OrDefault(timeFrame, "week");
      var request := Spotify.TopTracksRequest(
        accessToken.value, Some(Spotify.ConvertTimeFrameToRange(frame)), Some(renderLimit(OrDefault(limit, "5"))));
      match Spotify.ApiOutcome(answer)
      case Returned(page) => Reply(JsonResponse(200, TopTracks(Summaries(page.items, frame), true)), Some(request))
      case Thrown(_) => Reply(JsonResponse(500, Failure("Failed to fetch top tracks from Spotify", false)), Some(request))
  }

  /** Without a (non-empty) token cookie the route answers 401, not
      connected, and never calls Spotify. */
  lemma NoTokenNoCall(accessToken: Option<string>, timeFrame: Option<string>, limit: Option<string>,
                      renderLimit: string -> string, answer: Upstream<TopTracksPage>)
    ensures var r := Get(accessToken, timeFrame, limit, renderLimit, answer);
      (r.sent.None? <==> !IsTruthy(accessToken))
      && (!IsTruthy(accessToken) ==> r.response.status == 401 && !r.response.body.connected)
  {
  }

  /** The reply says connected exactly when Spotify answered ok with a
      page, and then it is a 200 with the page's tracks summarised, one per
      track, in order; any failure of the call is a 500. */
  lemma ConnectedIffAnswered(accessToken: Option<string>, timeFrame: Option<string>, limit: Option<string>,
                             renderLimit: string -> string, answer: Upstream<TopTracksPage>)
    ensures var r := Get(accessToken, timeFrame, limit, renderLimit, answer);
      && (r.response.body.connected <==>
            IsTruthy(accessToken) && answer.Answered? && IsOk(answer.status) && answer.json.Some?)
      && (r.response.body.connected ==>
            r.response.status == 200 && r.response.body.TopTracks?
            && r.response.body.tracks == Summaries(answer.json.value.items, OrDefault(timeFrame, "week")))
      && (IsTruthy(accessToken) && !r.response.body.connected ==> r.response.status == 500)
  {
    Spotify.ApiOutcomeCases(answer);
  }

  /** The range asked of Spotify is the time frame's range: short_term for
      an absent or unknown time frame, and the limit 5 unless one is given;
      every summary carries the time frame as written, even an unknown
      one. */
  lemma RequestedRange(token: string, timeFrame: Option<string>, limit: Option<string>,
                       renderLimit: string -> string, answer: Upstream<TopTracksPage>)
    requires token != ""
    ensures var r := Get(Some(token), timeFrame, limit, renderLimit, answer);
      var frame := OrDefault(timeFrame, "week");
      && r.sent == Some(Spotify.TopTracksRequest(token, Some(Spotify.ConvertTimeFrameToRange(frame)),
                                                 Some(renderLimit(OrDefault(limit, "5")))))
      && (!IsTruthy(timeFrame) ==> Spotify.ConvertTimeFrameToRange(frame) == "short_term")
      && (r.response.body.TopTracks? ==>
            forall i :: 0 <= i < |r.response.body.tracks| ==> r.response.body.tracks[i].timeFrame == frame)
  {
  }

  /** Summarising a concatenation summarises each part. */
  lemma {:induction false} SummariesAppend(a: seq<Track>, b: seq<Track>, timeFrame: string)
    ensures Summaries(a + b, timeFrame) == Summaries(a, timeFrame) + Summaries(b, timeFrame)
    decreases |a|
  {
    if |a| > 0 {
      assert (a + b)[1..] == a[1..] + b;
      SummariesAppend(a[1..], b, timeFrame);
    } else {
      assert a + b == b;
    }
  }
}

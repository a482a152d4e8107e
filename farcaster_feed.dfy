/** src/components/FarcasterFeed.tsx: the signed-in user's followers and
    following lists, fetched a page of 20 at a time.

    The component's state hooks are the fields of `Feed`. Each fetch is
    split at its `await`: `StartFetch` is what runs before the request goes
    out, `FinishFetch` what runs once it has settled, with the outcome as
    an input. `encode` stands for encodeURIComponent. */
module FarcasterFeed {
  import opened Common
  import UsersRoute

  datatype User = User(
    fid: nat, username: string, displayName: Option<string>, pfpUrl: Option<string>,
    followerCount: int, followingCount: int)

  datatype PageItem = PageItem(object: string, user: User)

  /** A page as the followers and following routes return it;
      `nextCursor` is `next?.cursor`, None when either is absent. */
  datatype FollowerPage = FollowerPage(users: seq<PageItem>, nextCursor: Option<string>)

  /** How a page fetch settled: with a page, or by throwing (a non-ok
      status, a network failure, or a body without a `users` list). */
  datatype PageResult = Page(page: FollowerPage) | Failed

  /** The two lists the component shows. */
  datatype Graph = Followers | Following

  function Other(g: Graph): Graph {
    if g == Followers then Following else Followers
  }

  function Endpoint(g: Graph): string {
    if g == Followers then "/api/followers" else "/api/following"
  }

  function FailureMessage(g: Graph): string {
    if g == Followers then "Failed to fetch followers" else "Failed to fetch following"
  }

  /** `data.users.map(item => item.user)`. */
  function PageUsers(items: seq<PageItem>): (users: seq<User>)
    ensures |users| == |items|
    ensures forall i :: 0 <= i < |items| ==> users[i] == items[i].user
    decreases |items|
  {
    if |items| == 0 then [] else [items[0].user] + PageUsers(items[1..])
  }

  lemma {:induction false} PageUsersAppend(a: seq<PageItem>, b: seq<PageItem>)
    ensures PageUsers(a + b) == PageUsers(a) + PageUsers(b)
    decreases |a|
  {
    if |a| > 0 {
      assert (a + b)[1..] == a[1..] + b;
      PageUsersAppend(a[1..], b);
    } else {
      assert a + b == b;
    }
  }

  /** The URL of a page request: the first page without a cursor, a later
      one with it. */
  function FetchUrl(g: Graph, fid: nat, cursor: Option<string>, encode: string -> string): string {
    var first := Endpoint(g) + "?fid=" + NatToString(fid) + "&limit=20";
    if IsTruthy(cursor) then first + "&cursor=" + encode(cursor.value) else first
  }

  /** A later page's URL is the first page's followed by the encoded
      cursor, and the fid in it reads back as the user's fid. */
  lemma FetchUrlParts(g: Graph, fid: nat, cursor: Option<string>, encode: string -> string)
    ensures IsTruthy(cursor) ==>
      FetchUrl(g, fid, cursor, encode) == FetchUrl(g, fid, None, encode) + "&cursor=" + encode(cursor.value)
    ensures !IsTruthy(cursor) ==> FetchUrl(g, fid, cursor, encode) == FetchUrl(g, fid, None, encode)
    ensures DecimalValue(NatToString(fid)) == fid
  {
    DecimalRoundTrip(fid);
  }

  /** The fids fetchUsers posts to /api/users. */
  function UsersRequestFids(fid: nat): seq<nat> {
    [fid, 3, 2, 1]
  }

  class Feed {
    /** `session?.user?.fid`; 0 and a missing fid are both falsy. */
    const userFid: Option<nat>
    var followers: seq<User>
    var following: seq<User>
    var followersCursor: Option<string>
    var followingCursor: Option<string>
    var loading: bool
    var loadingMore: bool
    var error: Option<string>

    /** A stored cursor is never the empty string: `|| null` turns it into
        null. */
    predicate Valid()
      reads this
    {
      followersCursor != Some("") && followingCursor != Some("")
    }

    predicate HasFid() {
      userFid.Some? && userFid.value != 0
    }

    function List(g: Graph): seq<User>
      reads this
    {
      if g == Followers then followers else following
    }

    function Cursor(g: Graph): Option<string>
      reads this
    {
      if g == Followers then followersCursor else followingCursor
    }

    /** The initial state of the hooks. */
    constructor (userFid: Option<nat>)
      ensures this.userFid == userFid
      ensures followers == [] && following == [] && followersCursor == None && followingCursor == None
      ensures !loading && !loadingMore && error == None
      ensures Valid()
    {
      this.userFid := userFid;
      followers, following := [], [];
      followersCursor, followingCursor := None, None;
      loading, loadingMore := false, false;
      error := None;
    }

    /** fetchUserFollowers / fetchUserFollowing up to the fetch: without a
        fid nothing happens; otherwise the flag that belongs to the kind of
        call is raised, the error is cleared, and the URL requested is
        returned. */
    method StartFetch(g: Graph, cursor: Option<string>, encode: string -> string) returns (url: Option<string>)
      modifies this
      ensures !HasFid() ==> url == None && unchanged(this)
      ensures HasFid() ==> url == Some(FetchUrl(g, userFid.value, cursor, encode))
      ensures HasFid() ==>
        && error == None
        && (if IsTruthy(cursor) then loadingMore && loading == old(loading)
            else loading && loadingMore == old(loadingMore))
      ensures followers == old(followers) && following == old(following)
      ensures followersCursor == old(followersCursor) && followingCursor == old(followingCursor)
    {
      if !HasFid() {
        return None;
      }
      var isLoadingMore := IsTruthy(cursor);
      if !isLoadingMore {
        loading := true;
      } else {
        loadingMore := true;
      }
      error := None;
      var u := Endpoint(g) + "?fid=" + NatToString(userFid.value) + "&limit=20";
      if isLoadingMore {
        u := u + "&cursor=" + encode(cursor.value);
      }
      url := Some(u);
    }

    /** The rest of the fetch, once it settled. A page replaces the list
        (first page) or is appended to it (later page) and sets the cursor
        to the page's next cursor, or null when there is none; a failure
        sets the error and leaves the list and the cursor alone. Either way
        the flag raised at the start comes down, and the other list is not
        touched. */
    method FinishFetch(g: Graph, cursor: Option<string>, result: PageResult)
      requires HasFid()
      modifies this
      ensures result.Page? ==>
        && List(g) == (if IsTruthy(cursor) then old(List(g)) + PageUsers(result.page.users)
                       else PageUsers(result.page.users))
        && Cursor(g) == (if IsTruthy(result.page.nextCursor) then result.page.nextCursor else None)
        && error == old(error)
      ensures result.Failed? ==>
        List(g) == old(List(g)) && Cursor(g) == old(Cursor(g)) && error == Some(FailureMessage(g))
      ensures List(Other(g)) == old(List(Other(g))) && Cursor(Other(g)) == old(Cursor(Other(g)))
      ensures if IsTruthy(cursor) then !loadingMore && loading == old(loading)
              else !loading && loadingMore == old(loadingMore)
      ensures old(Valid()) ==> Valid()
    {
      var isLoadingMore := IsTruthy(cursor);
      match result {
        case Page(page) =>
          var newUsers := PageUsers(page.users);
          var next := if IsTruthy(page.nextCursor) then page.nextCursor else None;
          if g == Followers {
            followersCursor := next;
            if isLoadingMore {
              followers := followers + newUsers;
            } else {
              followers := newUsers;
            }
          } else {
            followingCursor := next;
            if isLoadingMore {
              following := following + newUsers;
            } else {
              following := newUsers;
            }
          }
        case Failed =>
          error := Some(FailureMessage(g));
      }
      if !isLoadingMore {
        loading := false;
      } else {
        loadingMore := false;
      }
    }

    /** A whole fetch, run without anything in between: the raised flag is
        down again afterwards. */
    method Fetch(g: Graph, cursor: Option<string>, result: PageResult, encode: string -> string)
      returns (url: Option<string>)
      modifies this
      ensures !HasFid() ==> url == None && unchanged(this)
      ensures HasFid() ==>
        && url == Some(FetchUrl(g, userFid.value, cursor, encode))
        && (if IsTruthy(cursor) then !loadingMore && loading == old(loading)
            else !loading && loadingMore == old(loadingMore))
        && (result.Page? ==> error == None)
        && (result.Failed? ==> error == Some(FailureMessage(g)))
        && (result.Page? && !IsTruthy(cursor) ==> List(g) == PageUsers(result.page.users))
        && (result.Page? && IsTruthy(cursor) ==> List(g) == old(List(g)) + PageUsers(result.page.users))
        && (result.Page? ==> Cursor(g) == (if IsTruthy(result.page.nextCursor) then result.page.nextCursor else None))
        && (result.Failed? ==> List(g) == old(List(g)) && Cursor(g) == old(Cursor(g)))
      ensures List(Other(g)) == old(List(Other(g))) && Cursor(Other(g)) == old(Cursor(Other(g)))
      ensures old(Valid()) ==> Valid()
    {
      url := StartFetch(g, cursor, encode);
      if url.Some? {
        FinishFetch(g, cursor, result);
      }
    }

    /** loadMoreFollowers / loadMoreFollowing up to the fetch: only with a
        stored cursor, and then with exactly that cursor, which (the cursor
        being non-empty) always makes it a load-more call. */
    method StartLoadMore(g: Graph, encode: string -> string) returns (url: Option<string>)
      requires Valid()
      modifies this
      ensures old(Cursor(g)).None? || !HasFid() ==> url == None && unchanged(this)
      ensures old(Cursor(g)).Some? && HasFid() ==>
        && url == Some(FetchUrl(g, userFid.value, old(Cursor(g)), encode))
        && loadingMore && loading == old(loading) && error == None
        && followers == old(followers) && following == old(following)
        && followersCursor == old(followersCursor) && followingCursor == old(followingCursor)
    {
      var cursor := Cursor(g);
      if IsTruthy(cursor) {
        url := StartFetch(g, cursor, encode);
      } else {
        url := None;
      }
    }

    /** fetchUsers up to the fetch: without a fid nothing happens;
        otherwise `loading` is raised, the error cleared, and the fids
        posted are returned. */
    method StartFetchUsers() returns (fids: Option<seq<nat>>)
      modifies this
      ensures !HasFid() ==> fids == None && unchanged(this)
      ensures HasFid() ==> fids == Some(UsersRequestFids(userFid.value)) && loading && error == None
      ensures HasFid() ==>
        && loadingMore == old(loadingMore)
        && followers == old(followers) && following == old(following)
        && followersCursor == old(followersCursor) && followingCursor == old(followingCursor)
    {
      if !HasFid() {
        return None;
      }
      loading := true;
      error := None;
      fids := Some([userFid.value, 3, 2, 1]);
    }

    /** The rest of fetchUsers: its data is not used; a failure sets the
        error; `loading` comes down either way. */
    method FinishFetchUsers(succeeded: bool)
      modifies this
      ensures !loading
      ensures error == if succeeded then old(error) else Some("Failed to fetch users")
      ensures loadingMore == old(loadingMore)
      ensures followers == old(followers) && following == old(following)
      ensures followersCursor == old(followersCursor) && followingCursor == old(followingCursor)
    {
      if !succeeded {
        error := Some("Failed to fetch users");
      }
      loading := false;
    }
  }

  /** In a valid state a stored cursor is truthy exactly when it is
      stored, so loading more is offered exactly when there is a cursor. */
  lemma StoredCursorTruthy(feed: Feed, g: Graph)
    requires feed.Valid()
    ensures IsTruthy(feed.Cursor(g)) <==> feed.Cursor(g).Some?
  {
  }

  /** The fids fetchUsers posts are all numbers, so the users route keeps
      every one of them, in order. */
  lemma UsersRequestAllValid(fid: nat, numeral: nat -> Option<string>)
    requires forall n: nat :: numeral(n) == Some(NatToString(n))
    ensures UsersRoute.ValidFids(UsersRequestFids(fid), numeral)
      == [NatToString(fid), NatToString(3), NatToString(2), NatToString(1)]
  {
    var fids := UsersRequestFids(fid);
    UsersRoute.ValidFidsAllNumbers(fids, numeral);
  }
}

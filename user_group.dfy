/**
 * The user groups of the server: the walk over a cursored Twitter endpoint (`fetchCursor`),
 * the owned list slugs, the four kinds of group (friends, followers, list, empty) with their
 * member fetches and patches, and the factory that builds a group from a key, a path or an
 * owner's slugs.
 */
module UserGroup {
  import opened Wrappers
  import opened UserLists
  import opened GroupPath
  import opened TwitterClient

  /** The exceptions the user-group code throws or lets through. */
  datatype GroupError =
    | CursorSpecified               // "Don't specify cursor."
    | Remote(cause: ApiError)       // a rejected client promise
    | InvalidGroupType              // "Invalid group type."
    | InvalidPath(pathError: PathError) // the path did not parse
    | FriendsPatchUnsupported       // "Use group of friends doesn't support patching."
    | FollowersPatchUnsupported     // "Use group of followers doesn't support patching."
    | NotImplemented                // the empty group's patch

  // ---------------------------------------------------------------------------------------
  // fetchCursor

  /**
   * The callback `fetchCursor` is given. Every callback in the source forwards the cursor
   * option it receives, except the friends fetch, whose callback ignores its argument and
   * sends the option it captured (which never carries a cursor).
   */
  datatype Fetcher = SendLocal(endpoint: string) | SendOriginal(endpoint: string)

  /** The request a callback sends when the walk is at `cursor`. */
  function RequestFor(f: Fetcher, option: CursorOption, cursor: int): (req: GetRequest)
    ensures req.endpoint == f.endpoint && req.option.params == option.params
    ensures f.SendLocal? ==> req.option.cursor == Some(cursor)
    ensures f.SendOriginal? ==> req.option == option
  {
    match f
    case SendLocal(e) => GetRequest(e, option.(cursor := Some(cursor)))
    case SendOriginal(e) => GetRequest(e, option)
  }

  /** What a walk over the scripted replies sends, returns, and leaves unanswered. */
  datatype Walked = Walked(requests: seq<GetRequest>, result: Result<seq<Page>, GroupError>, remaining: seq<Page>)

  /**
   * The reference walk: send the request for `cursor`, take the next reply; stop after a
   * page whose `next_cursor` is 0, otherwise continue from that cursor. A failed request
   * ends the walk with its error.
   */
  function Walk(f: Fetcher, option: CursorOption, cursor: int, replies: seq<Page>): (w: Walked)
    ensures |w.requests| >= 1 && w.requests[0] == RequestFor(f, option, cursor)
    ensures w.result.Ok? ==> |w.result.value| == |w.requests| <= |replies| && w.remaining == replies[|w.requests|..]
    ensures w.result.Err? ==> w.result == Err(Remote(RequestFailed)) && |w.requests| == |replies| + 1 && w.remaining == []
    decreases |replies|
  {
    var request := RequestFor(f, option, cursor);
    if replies == [] then Walked([request], Err(Remote(RequestFailed)), [])
    else if replies[0].nextCursor == 0 then Walked([request], Ok([replies[0]]), replies[1..])
    else
      var rest := Walk(f, option, replies[0].nextCursor, replies[1..]);
      Walked([request] + rest.requests, Prepend([replies[0]], rest.result), rest.remaining)
  }

  function Prepend(pages: seq<Page>, r: Result<seq<Page>, GroupError>): Result<seq<Page>, GroupError>
  {
    if r.Ok? then Ok(pages + r.value) else r
  }

  /**
   * A walk `whole` is the requests `sent` and pages `results` already taken, followed by
   * the walk `w` still ahead.
   */
  ghost predicate Continues(whole: Walked, sent: seq<GetRequest>, results: seq<Page>, w: Walked)
  {
    whole.requests == sent + w.requests && whole.result == Prepend(results, w.result) && whole.remaining == w.remaining
  }

  lemma WalkStarts(f: Fetcher, option: CursorOption, cursor: int, replies: seq<Page>)
    ensures Continues(Walk(f, option, cursor, replies), [], [], Walk(f, option, cursor, replies))
  {
    var w := Walk(f, option, cursor, replies);
    assert w.requests == [] + w.requests;
    if w.result.Ok? {
      assert [] + w.result.value == w.result.value;
    }
  }

  /** The walk ends at an exhausted script or at a page whose `next_cursor` is 0. */
  lemma WalkEnds(f: Fetcher, option: CursorOption, cursor: int, replies: seq<Page>,
                 whole: Walked, sent: seq<GetRequest>, results: seq<Page>)
    requires replies == [] || replies[0].nextCursor == 0
    requires Continues(whole, sent, results, Walk(f, option, cursor, replies))
    ensures whole.requests == sent + [RequestFor(f, option, cursor)]
    ensures replies == [] ==> whole.result == Err(Remote(RequestFailed)) && whole.remaining == []
    ensures replies != [] ==> whole.result == Ok(results + [replies[0]]) && whole.remaining == replies[1..]
  {
  }

  /** One step of the walk past a page whose `next_cursor` is not 0. */
  lemma WalkSteps(f: Fetcher, option: CursorOption, cursor: int, replies: seq<Page>,
                  whole: Walked, sent: seq<GetRequest>, results: seq<Page>)
    requires replies != [] && replies[0].nextCursor != 0
    requires Continues(whole, sent, results, Walk(f, option, cursor, replies))
    ensures Continues(whole, sent + [RequestFor(f, option, cursor)], results + [replies[0]],
      Walk(f, option, replies[0].nextCursor, replies[1..]))
  {
    var rest := Walk(f, option, replies[0].nextCursor, replies[1..]);
    assert sent + ([RequestFor(f, option, cursor)] + rest.requests) == (sent + [RequestFor(f, option, cursor)]) + rest.requests;
    if rest.result.Ok? {
      assert results + ([replies[0]] + rest.result.value) == (results + [replies[0]]) + rest.result.value;
    }
  }

  /** The index of the first page whose `next_cursor` is 0, if any. */
  function LastPage(replies: seq<Page>): (k: Option<nat>)
    ensures k.Some? ==> k.value < |replies| && replies[k.value].nextCursor == 0
    ensures k.Some? ==> forall j :: 0 <= j < k.value ==> replies[j].nextCursor != 0
    ensures k.None? ==> forall j :: 0 <= j < |replies| ==> replies[j].nextCursor != 0
  {
    if replies == [] then None
    else if replies[0].nextCursor == 0 then Some(0)
    else match LastPage(replies[1..])
      case None => None
      case Some(k) => Some(k + 1)
  }

  /** The pages a walk returns, read off the replies: see `WalkResult`. */
  function ExpectedResult(replies: seq<Page>): Result<seq<Page>, GroupError>
  {
    match LastPage(replies)
    case None => Err(Remote(RequestFailed))
    case Some(k) => Ok(replies[..k + 1])
  }

  /** Past a page whose `next_cursor` is not 0, the expected result gains that page. */
  lemma ExpectedResultStep(replies: seq<Page>)
    requires replies != [] && replies[0].nextCursor != 0
    ensures ExpectedResult(replies) == Prepend([replies[0]], ExpectedResult(replies[1..]))
  {
    var k := LastPage(replies[1..]);
    if k.Some? {
      assert LastPage(replies) == Some(k.value + 1);
      assert replies[..k.value + 2] == [replies[0]] + replies[1..][..k.value + 1];
    }
  }

  /**
   * The walk returns every reply up to and including the first page with a zero
   * `next_cursor`, and fails when the replies run out before such a page.
   */
  lemma {:induction false} WalkResult(f: Fetcher, option: CursorOption, cursor: int, replies: seq<Page>)
    ensures Walk(f, option, cursor, replies).result == ExpectedResult(replies)
    decreases |replies|
  {
    if replies == [] {
    } else if replies[0].nextCursor == 0 {
      assert replies[..1] == [replies[0]];
    } else {
      WalkResult(f, option, replies[0].nextCursor, replies[1..]);
      ExpectedResultStep(replies);
    }
  }

  /** Request i > 0 carries the `next_cursor` of reply i - 1. */
  predicate ForwardsCursors(requests: seq<GetRequest>, e: string, option: CursorOption, replies: seq<Page>)
  {
    forall i :: 0 < i < |requests| ==>
      i - 1 < |replies| && requests[i] == GetRequest(e, option.(cursor := Some(replies[i - 1].nextCursor)))
  }

  /** Every request is the same. */
  predicate AllSame(requests: seq<GetRequest>, request: GetRequest)
  {
    forall i :: 0 <= i < |requests| ==> requests[i] == request
  }

  /** When the callback forwards its option, the walk moves the cursor along the replies. */
  lemma {:induction false} WalkForwardsCursors(e: string, option: CursorOption, cursor: int, replies: seq<Page>)
    ensures ForwardsCursors(Walk(SendLocal(e), option, cursor, replies).requests, e, option, replies)
    decreases |replies|
  {
    var w := Walk(SendLocal(e), option, cursor, replies);
    if replies != [] && replies[0].nextCursor != 0 {
      var rest := Walk(SendLocal(e), option, replies[0].nextCursor, replies[1..]);
      WalkForwardsCursors(e, option, replies[0].nextCursor, replies[1..]);
      forall i | 0 < i < |w.requests|
        ensures i - 1 < |replies| && w.requests[i] == GetRequest(e, option.(cursor := Some(replies[i - 1].nextCursor)))
      {
        assert w.requests[i] == rest.requests[i - 1];
        if i > 1 {
          assert replies[i - 1] == replies[1..][i - 2];
        }
      }
    }
  }

  /** When the callback ignores its option, every request is the caller's original option. */
  lemma {:induction false} WalkRepeatsOriginal(e: string, option: CursorOption, cursor: int, replies: seq<Page>)
    ensures AllSame(Walk(SendOriginal(e), option, cursor, replies).requests, GetRequest(e, option))
    decreases |replies|
  {
    var w := Walk(SendOriginal(e), option, cursor, replies);
    if replies != [] && replies[0].nextCursor != 0 {
      var rest := Walk(SendOriginal(e), option, replies[0].nextCursor, replies[1..]);
      WalkRepeatsOriginal(e, option, replies[0].nextCursor, replies[1..]);
      assert forall i :: 0 < i < |w.requests| ==> w.requests[i] == rest.requests[i - 1];
    }
  }

  /**
   * `fetchCursor(option, fetch)`: refuses an option that already has a cursor; otherwise
   * calls the callback with cursor -1, then with each reply's `next_cursor`, until a reply's
   * `next_cursor` is 0, and returns the replies.
   */
  method FetchCursor(option: CursorOption, f: Fetcher, client: Client) returns (r: Result<seq<Page>, GroupError>)
    modifies client
    ensures option.cursor.Some? ==> r == Err(CursorSpecified) && unchanged(client)
    ensures option.cursor.None? ==>
      var w := Walk(f, option, -1, old(client.replies));
      r == w.result && client.gets == old(client.gets) + w.requests &&
      client.replies == w.remaining && client.posts == old(client.posts)
  {
    if option.cursor.Some? {
      return Err(CursorSpecified);
    }
    var cursor := -1;
    var results: seq<Page> := [];
    ghost var sent: seq<GetRequest> := [];
    ghost var whole := Walk(f, option, -1, client.replies);
    WalkStarts(f, option, -1, client.replies);
    while true
      invariant client.gets == old(client.gets) + sent && client.posts == old(client.posts)
      invariant Continues(whole, sent, results, Walk(f, option, cursor, client.replies))
      decreases |client.replies|
    {
      var local := option.(cursor := Some(cursor));
      var sending := if f.SendLocal? then local else option;
      assert GetRequest(f.endpoint, sending) == RequestFor(f, option, cursor);
      ghost var before := client.replies;
      var reply := client.Get(f.endpoint, sending);
      if reply.Err? {
        WalkEnds(f, option, cursor, before, whole, sent, results);
        ConcatAssoc(old(client.gets), sent, [RequestFor(f, option, cursor)]);
        return Err(Remote(reply.error));
      }
      var page := reply.value;
      if page.nextCursor == 0 {
        WalkEnds(f, option, cursor, before, whole, sent, results);
        ConcatAssoc(old(client.gets), sent, [RequestFor(f, option, cursor)]);
        return Ok(results + [page]);
      }
      WalkSteps(f, option, cursor, before, whole, sent, results);
      ConcatAssoc(old(client.gets), sent, [RequestFor(f, option, cursor)]);
      sent := sent + [RequestFor(f, option, cursor)];
      results := results + [page];
      cursor := page.nextCursor;
    }
  }

  lemma ConcatAssoc<T>(a: seq<T>, b: seq<T>, c: seq<T>)
    ensures (a + b) + c == a + (b + c)
  {
  }

  // ---------------------------------------------------------------------------------------
  // Replies to users and slugs

  /** The users of all pages, in order. */
  function UsersOf(pages: seq<Page>): seq<TwitterUser>
  {
    if pages == [] then [] else pages[0].users + UsersOf(pages[1..])
  }

  /** The list slugs of all pages, in order. */
  function SlugsOf(pages: seq<Page>): seq<string>
  {
    if pages == [] then [] else pages[0].listSlugs + SlugsOf(pages[1..])
  }

  function MapUsers(r: Result<seq<Page>, GroupError>): Result<seq<TwitterUser>, GroupError>
  {
    if r.Ok? then Ok(UsersOf(r.value)) else Err(r.error)
  }

  function MapSlugs(r: Result<seq<Page>, GroupError>): Result<seq<string>, GroupError>
  {
    if r.Ok? then Ok(SlugsOf(r.value)) else Err(r.error)
  }

  /** The option of `fetchOwnedListSlugs`. */
  function OwnershipsOption(screenName: string): CursorOption
  {
    CursorOption(map["screen_name" := Str(screenName), "count" := Num(1000)], None)
  }

  /**
   * `fetchOwnedListSlugs(screenName, client)`: walks `lists/ownerships` for the owner,
   * 1000 lists per page, and returns the slugs of all lists of all pages.
   */
  method FetchOwnedListSlugs(screenName: string, client: Client) returns (r: Result<seq<string>, GroupError>)
    modifies client
    ensures var w := Walk(SendLocal("lists/ownerships"), OwnershipsOption(screenName), -1, old(client.replies));
      r == MapSlugs(w.result) && client.gets == old(client.gets) + w.requests &&
      client.replies == w.remaining && client.posts == old(client.posts)
  {
    var pages := FetchCursor(OwnershipsOption(screenName), SendLocal("lists/ownerships"), client);
    r := MapSlugs(pages);
  }

  // ---------------------------------------------------------------------------------------
  // Groups

  /** A user group: the three Twitter-backed kinds hold their key, the empty group none. */
  datatype UserGroup = Friends(key: GroupKey) | Followers(key: GroupKey) | List(key: GroupKey) | Empty

  /** `group.userGroupKey` */
  function KeyOf(g: UserGroup): GroupKey
  {
    if g.Empty? then EmptyKey else g.key
  }

  /** `group.path`: the key unparsed, the empty string for the empty group. */
  function PathOf(g: UserGroup): (path: string)
    ensures g.Empty? ==> path == ""
    ensures !g.Empty? && g.key.kind != EmptyType ==> path != "" && path[0] == '@'
  {
    if g.Empty? then "" else Unparse(g.key)
  }

  /** `new FriendsUserGroup(key, client)`: only a friends key is accepted. */
  function NewFriends(key: GroupKey): (r: Result<UserGroup, GroupError>)
    ensures r.Ok? <==> key.kind == FriendsType
    ensures r.Ok? ==> r.value.Friends? && KeyOf(r.value) == key
    ensures r.Err? ==> r.error == InvalidGroupType
  {
    if key.kind != FriendsType then Err(InvalidGroupType) else Ok(Friends(key))
  }

  /** `new FollowersUserGroup(key, client)`: only a followers key is accepted. */
  function NewFollowers(key: GroupKey): (r: Result<UserGroup, GroupError>)
    ensures r.Ok? <==> key.kind == FollowersType
    ensures r.Ok? ==> r.value.Followers? && KeyOf(r.value) == key
    ensures r.Err? ==> r.error == InvalidGroupType
  {
    if key.kind != FollowersType then Err(InvalidGroupType) else Ok(Followers(key))
  }

  /** `new ListUserGroup(key, client)`: only a list key is accepted. */
  function NewList(key: GroupKey): (r: Result<UserGroup, GroupError>)
    ensures r.Ok? <==> key.kind == ListType
    ensures r.Ok? ==> r.value.List? && KeyOf(r.value) == key
    ensures r.Err? ==> r.error == InvalidGroupType
  {
    if key.kind != ListType then Err(InvalidGroupType) else Ok(List(key))
  }

  /** The option of a member fetch: friends and followers by owner, a list by owner and slug. */
  function MembersOption(g: UserGroup): CursorOption
    requires !g.Empty?
  {
    var common := map["count" := Num(5000), "skip_status" := Flag(true), "include_user_entities" := Flag(false)];
    match g
    case Friends(k) => CursorOption(common["screen_name" := Str(k.ownerScreenName)], None)
    case Followers(k) => CursorOption(common["screen_name" := Str(k.ownerScreenName)], None)
    case List(k) => CursorOption(common["slug" := Str(k.slug)]["owner_screen_name" := Str(k.ownerScreenName)], None)
  }

  /** The callback of a member fetch. The friends callback sends its captured option. */
  function MembersFetcher(g: UserGroup): Fetcher
    requires !g.Empty?
  {
    match g
    case Friends(_) => SendOriginal("friends/list")
    case Followers(_) => SendLocal("followers/list")
    case List(_) => SendLocal("lists/members")
  }

  /** The walk of a member fetch; the empty group sends nothing and has one empty page. */
  function MembersWalk(g: UserGroup, replies: seq<Page>): (w: Walked)
    ensures g.Empty? ==> w.requests == [] && w.remaining == replies && MapUsers(w.result) == Ok([])
  {
    if g.Empty? then Walked([], Ok([]), replies) else Walk(MembersFetcher(g), MembersOption(g), -1, replies)
  }

  /**
   * `group.fetchMembers()`: the empty group has no members and sends nothing; the others
   * walk their endpoint and return the users of all pages.
   */
  method FetchMembers(g: UserGroup, client: Client) returns (r: Result<seq<TwitterUser>, GroupError>)
    modifies client
    ensures g.Empty? ==> r == Ok([]) && unchanged(client)
    ensures var w := MembersWalk(g, old(client.replies));
      r == MapUsers(w.result) && client.gets == old(client.gets) + w.requests &&
      client.replies == w.remaining && client.posts == old(client.posts)
  {
    if g.Empty? {
      assert old(client.gets) + [] == client.gets;
      return Ok([]);
    }
    var pages := FetchCursor(MembersOption(g), MembersFetcher(g), client);
    r := MapUsers(pages);
  }

  /**
   * The friends fetch always asks for the first page: every request it sends is the same
   * cursorless option, whatever `next_cursor` the replies carry. The followers and list
   * fetches move the cursor along.
   */
  lemma FetchRequestsByKind(g: UserGroup, replies: seq<Page>)
    requires !g.Empty?
    ensures g.Friends? ==>
      AllSame(Walk(MembersFetcher(g), MembersOption(g), -1, replies).requests, GetRequest("friends/list", MembersOption(g)))
    ensures !g.Friends? ==>
      Walk(MembersFetcher(g), MembersOption(g), -1, replies).requests[0].option.cursor == Some(-1) &&
      ForwardsCursors(Walk(MembersFetcher(g), MembersOption(g), -1, replies).requests,
        MembersFetcher(g).endpoint, MembersOption(g), replies)
  {
    var f := MembersFetcher(g);
    var w := Walk(f, MembersOption(g), -1, replies);
    if g.Friends? {
      WalkRepeatsOriginal(f.endpoint, MembersOption(g), -1, replies);
    } else {
      WalkForwardsCursors(f.endpoint, MembersOption(g), -1, replies);
    }
  }

  // ---------------------------------------------------------------------------------------
  // Patching a list

  /** Twitter's limit on the screen names of one list-members request. */
  const ChunkLimit: nat := 100
  const CreateAll := "lists/members/create_all"
  const DestroyAll := "lists/members/destroy_all"

  /** One request per chunk, carrying the chunk's screen names. */
  function PlanOf(endpoint: string, key: GroupKey, chunks: seq<seq<TwitterUser>>): (plan: seq<PostRequest>)
    ensures |plan| == |chunks|
    ensures forall i :: 0 <= i < |chunks| ==>
      plan[i] == PostRequest(endpoint, key.ownerScreenName, key.slug, ScreenNameList(chunks[i]))
  {
    if chunks == [] then []
    else [PostRequest(endpoint, key.ownerScreenName, key.slug, ScreenNameList(chunks[0]))] + PlanOf(endpoint, key, chunks[1..])
  }

  /** The requests `addMembers` / `removeMembers` send when none is refused. */
  function PostPlan(endpoint: string, key: GroupKey, users: seq<TwitterUser>): seq<PostRequest>
  {
    PlanOf(endpoint, key, Chunks(users, ChunkLimit))
  }

  /** The requests a patch sends when none is refused: removals first, then additions. */
  function PatchPlan(key: GroupKey, diff: UserListDiff): seq<PostRequest>
  {
    PostPlan(DestroyAll, key, diff.removedUsers) + PostPlan(CreateAll, key, diff.addedUsers)
  }

  /** No request of the plan is refused. */
  predicate AllAccepted(plan: seq<PostRequest>, rejected: set<PostRequest>)
  {
    forall i :: 0 <= i < |plan| ==> plan[i] !in rejected
  }

  /** The requests actually sent: the plan up to and including the first refused request. */
  function Sent(plan: seq<PostRequest>, rejected: set<PostRequest>): (s: seq<PostRequest>)
    ensures |s| <= |plan|
    ensures AllAccepted(plan, rejected) ==> s == plan
  {
    if plan == [] then []
    else if plan[0] in rejected then [plan[0]]
    else [plan[0]] + Sent(plan[1..], rejected)
  }

  lemma {:induction false} SentAfterAccepted(plan: seq<PostRequest>, rejected: set<PostRequest>, i: nat)
    requires i <= |plan| && AllAccepted(plan[..i], rejected)
    ensures Sent(plan, rejected) == plan[..i] + Sent(plan[i..], rejected)
  {
    if i > 0 {
      var tail := plan[1..];
      assert plan[0] !in rejected by {
        assert plan[..i][0] == plan[0];
      }
      var between := tail[..i - 1];
      assert AllAccepted(between, rejected) by {
        forall j | 0 <= j < |between| ensures between[j] !in rejected {
          assert between[j] == plan[..i][j + 1];
        }
      }
      SentAfterAccepted(tail, rejected, i - 1);
      assert tail[i - 1..] == plan[i..];
      assert Sent(plan, rejected) == [plan[0]] + (tail[..i - 1] + Sent(plan[i..], rejected));
      ConcatAssoc([plan[0]], tail[..i - 1], Sent(plan[i..], rejected));
      assert [plan[0]] + tail[..i - 1] == plan[..i];
    } else {
      assert plan[..0] + Sent(plan[0..], rejected) == Sent(plan, rejected) by {
        assert plan[0..] == plan;
      }
    }
  }

  /** The plan stops at its first refused request, which is sent. */
  lemma SentStopsAt(plan: seq<PostRequest>, rejected: set<PostRequest>, i: nat)
    requires i < |plan| && AllAccepted(plan[..i], rejected) && plan[i] in rejected
    ensures Sent(plan, rejected) == plan[..i] + [plan[i]]
    ensures !AllAccepted(plan, rejected)
  {
    SentAfterAccepted(plan, rejected, i);
    assert plan[i..][0] == plan[i];
  }

  lemma AcceptedExtends(plan: seq<PostRequest>, rejected: set<PostRequest>, i: nat)
    requires i < |plan| && AllAccepted(plan[..i], rejected) && plan[i] !in rejected
    ensures plan[..i + 1] == plan[..i] + [plan[i]]
    ensures AllAccepted(plan[..i + 1], rejected)
  {
    assert plan[..i + 1] == plan[..i] + [plan[i]];
    assert forall j :: 0 <= j < i ==> plan[..i + 1][j] == plan[..i][j];
  }

  lemma AllAcceptedCons(x: PostRequest, rest: seq<PostRequest>, rejected: set<PostRequest>)
    ensures AllAccepted([x] + rest, rejected) <==> x !in rejected && AllAccepted(rest, rejected)
  {
    var xs := [x] + rest;
    assert xs[0] == x;
    assert forall j :: 0 <= j < |rest| ==> xs[j + 1] == rest[j];
  }

  lemma AllAcceptedConcat(a: seq<PostRequest>, b: seq<PostRequest>, rejected: set<PostRequest>)
    ensures AllAccepted(a + b, rejected) <==> AllAccepted(a, rejected) && AllAccepted(b, rejected)
  {
    assert forall j :: 0 <= j < |a| ==> (a + b)[j] == a[j];
    assert forall j :: 0 <= j < |b| ==> (a + b)[|a| + j] == b[j];
  }

  /** Sending one plan after another stops at the first plan's first refused request. */
  lemma {:induction false} SentConcat(a: seq<PostRequest>, b: seq<PostRequest>, rejected: set<PostRequest>)
    ensures Sent(a + b, rejected) == if AllAccepted(a, rejected) then a + Sent(b, rejected) else Sent(a, rejected)
  {
    if a == [] {
      assert a + b == b;
    } else {
      var ab := a + b;
      assert ab[0] == a[0];
      assert ab[1..] == a[1..] + b;
      SentConcat(a[1..], b, rejected);
      assert a == [a[0]] + a[1..];
      AllAcceptedCons(a[0], a[1..], rejected);
      if AllAccepted(a, rejected) {
        assert Sent(ab, rejected) == [a[0]] + (a[1..] + Sent(b, rejected));
        ConcatAssoc([a[0]], a[1..], Sent(b, rejected));
      }
    }
  }

  /**
   * `addMembers` / `removeMembers`: split the users into chunks of 100 and post one request
   * per chunk, stopping at the first refused request.
   */
  method PostMembers(endpoint: string, key: GroupKey, users: seq<TwitterUser>, client: Client)
    returns (r: Result<(), GroupError>)
    modifies client
    ensures var plan := PostPlan(endpoint, key, users);
      client.posts == old(client.posts) + Sent(plan, client.rejected) &&
      r == (if AllAccepted(plan, client.rejected) then Ok(()) else Err(Remote(RequestFailed)))
    ensures client.gets == old(client.gets) && client.replies == old(client.replies)
  {
    var chunked := Chunkify(users, ChunkLimit);
    var chunks := chunked.value;
    ghost var plan := PlanOf(endpoint, key, chunks);
    var i := 0;
    while i < |chunks|
      invariant 0 <= i <= |chunks|
      invariant client.posts == old(client.posts) + plan[..i]
      invariant AllAccepted(plan[..i], client.rejected)
      invariant client.gets == old(client.gets) && client.replies == old(client.replies)
    {
      var request := PostRequest(endpoint, key.ownerScreenName, key.slug, ScreenNameList(chunks[i]));
      var posted := client.Post(request);
      assert request == plan[i];
      ConcatAssoc(old(client.posts), plan[..i], [request]);
      if posted.Err? {
        SentStopsAt(plan, client.rejected, i);
        return Err(Remote(posted.error));
      }
      AcceptedExtends(plan, client.rejected, i);
      i := i + 1;
    }
    assert plan[..i] == plan;
    r := Ok(());
  }

  /**
   * `group.patch(diff)`: only a list can be patched; it removes the removed users, then adds
   * the added ones. The other groups throw and send nothing.
   */
  method Patch(g: UserGroup, diff: UserListDiff, client: Client) returns (r: Result<(), GroupError>)
    modifies client
    ensures g.Friends? ==> r == Err(FriendsPatchUnsupported) && unchanged(client)
    ensures g.Followers? ==> r == Err(FollowersPatchUnsupported) && unchanged(client)
    ensures g.Empty? ==> r == Err(NotImplemented) && unchanged(client)
    ensures g.List? ==>
      var plan := PatchPlan(g.key, diff);
      client.posts == old(client.posts) + Sent(plan, client.rejected) &&
      r == (if AllAccepted(plan, client.rejected) then Ok(()) else Err(Remote(RequestFailed))) &&
      client.gets == old(client.gets) && client.replies == old(client.replies)
  {
    match g
    case Friends(_) => return Err(FriendsPatchUnsupported);
    case Followers(_) => return Err(FollowersPatchUnsupported);
    case Empty => return Err(NotImplemented);
    case List(key) =>
      ghost var removing := PostPlan(DestroyAll, key, diff.removedUsers);
      ghost var adding := PostPlan(CreateAll, key, diff.addedUsers);
      SentConcat(removing, adding, client.rejected);
      AllAcceptedConcat(removing, adding, client.rejected);
      r := PostMembers(DestroyAll, key, diff.removedUsers, client);
      if r.Err? {
        return;
      }
      ghost var afterRemoving := client.posts;
      assert afterRemoving == old(client.posts) + removing;
      r := PostMembers(CreateAll, key, diff.addedUsers, client);
      ghost var addSent := Sent(adding, client.rejected);
      assert client.posts == afterRemoving + addSent;
      ConcatAssoc(old(client.posts), removing, addSent);
  }

  // ---------------------------------------------------------------------------------------
  // What a patch does to the list

  /** The screen names of a list after the service applies the requests, in order. */
  function Apply(members: set<string>, posts: seq<PostRequest>): set<string>
    decreases |posts|
  {
    if posts == [] then members
    else
      var names := set n | n in posts[0].screenNames;
      var next := if posts[0].endpoint == CreateAll then members + names
                  else if posts[0].endpoint == DestroyAll then members - names
                  else members;
      Apply(next, posts[1..])
  }

  lemma {:induction false} ScreenNamesConcat(a: seq<TwitterUser>, b: seq<TwitterUser>)
    ensures ScreenNames(a + b) == ScreenNames(a) + ScreenNames(b)
  {
    if a != [] {
      assert (a + b)[1..] == a[1..] + b;
      ScreenNamesConcat(a[1..], b);
    }
  }

  lemma ScreenNameListNames(users: seq<TwitterUser>)
    ensures (set n | n in ScreenNameList(users)) == ScreenNames(users)
  {
    var l := ScreenNameList(users);
    forall n | n in ScreenNames(users) ensures n in l {
      var u :| u in users && u.screenName == n;
      var i :| 0 <= i < |users| && users[i] == u;
      assert l[i] == n;
    }
  }

  lemma {:induction false} ApplyPlan(members: set<string>, endpoint: string, key: GroupKey, chunks: seq<seq<TwitterUser>>)
    requires endpoint == CreateAll || endpoint == DestroyAll
    ensures Apply(members, PlanOf(endpoint, key, chunks)) ==
      if endpoint == CreateAll then members + ScreenNames(Flatten(chunks)) else members - ScreenNames(Flatten(chunks))
    decreases |chunks|
  {
    if chunks != [] {
      var plan := PlanOf(endpoint, key, chunks);
      assert plan[1..] == PlanOf(endpoint, key, chunks[1..]);
      ScreenNameListNames(chunks[0]);
      var next := if endpoint == CreateAll then members + ScreenNames(chunks[0]) else members - ScreenNames(chunks[0]);
      ApplyPlan(next, endpoint, key, chunks[1..]);
      ScreenNamesConcat(chunks[0], Flatten(chunks[1..]));
    }
  }

  lemma {:induction false} ApplyConcat(members: set<string>, a: seq<PostRequest>, b: seq<PostRequest>)
    ensures Apply(members, a + b) == Apply(Apply(members, a), b)
    decreases |a|
  {
    if a == [] {
      assert a + b == b;
    } else {
      assert (a + b)[0] == a[0];
      assert (a + b)[1..] == a[1..] + b;
      var names := set n | n in a[0].screenNames;
      var next := if a[0].endpoint == CreateAll then members + names
                  else if a[0].endpoint == DestroyAll then members - names
                  else members;
      ApplyConcat(next, a[1..], b);
    }
  }

  /**
   * A patch with the diff of the old and new member lists, none of whose requests is
   * refused, turns a list holding the old members' names into one holding the new members'.
   */
  lemma PatchConverges(key: GroupKey, oldUsers: seq<TwitterUser>, newUsers: seq<TwitterUser>)
    ensures Apply(ScreenNames(oldUsers), PatchPlan(key, DiffUserList(oldUsers, newUsers))) == ScreenNames(newUsers)
  {
    var d := DiffUserList(oldUsers, newUsers);
    var removing := PostPlan(DestroyAll, key, d.removedUsers);
    ApplyConcat(ScreenNames(oldUsers), removing, PostPlan(CreateAll, key, d.addedUsers));
    ApplyPlan(ScreenNames(oldUsers), DestroyAll, key, Chunks(d.removedUsers, ChunkLimit));
    ChunksFlatten(d.removedUsers, ChunkLimit);
    var left := ScreenNames(oldUsers) - ScreenNames(d.removedUsers);
    ApplyPlan(left, CreateAll, key, Chunks(d.addedUsers, ChunkLimit));
    ChunksFlatten(d.addedUsers, ChunkLimit);
    DiffConverges(oldUsers, newUsers);
  }

  /**
   * The shape of a patch: first one `destroy_all` request per chunk of removed users, then
   * one `create_all` request per chunk of added users; each names between 1 and 100 users of
   * the list being patched, and a diff with nothing to do sends nothing.
   */
  lemma PatchPlanShape(key: GroupKey, diff: UserListDiff)
    ensures |PatchPlan(key, diff)| == |Chunks(diff.removedUsers, ChunkLimit)| + |Chunks(diff.addedUsers, ChunkLimit)|
    ensures forall i :: 0 <= i < |PatchPlan(key, diff)| ==>
      PatchPlan(key, diff)[i].endpoint == (if i < |Chunks(diff.removedUsers, ChunkLimit)| then DestroyAll else CreateAll)
    ensures forall i :: 0 <= i < |PatchPlan(key, diff)| ==>
      0 < |PatchPlan(key, diff)[i].screenNames| <= ChunkLimit &&
      PatchPlan(key, diff)[i].ownerScreenName == key.ownerScreenName && PatchPlan(key, diff)[i].slug == key.slug
    ensures diff.removedUsers == [] && diff.addedUsers == [] ==> PatchPlan(key, diff) == []
  {
    ChunksShape(diff.removedUsers, ChunkLimit);
    ChunksShape(diff.addedUsers, ChunkLimit);
    var removing := Chunks(diff.removedUsers, ChunkLimit);
    var adding := Chunks(diff.addedUsers, ChunkLimit);
    var plan := PatchPlan(key, diff);
    forall i | 0 <= i < |plan|
      ensures plan[i].endpoint == (if i < |removing| then DestroyAll else CreateAll)
      ensures 0 < |plan[i].screenNames| <= ChunkLimit
    {
      if i < |removing| {
        assert plan[i] == PlanOf(DestroyAll, key, removing)[i];
      } else {
        assert plan[i] == PlanOf(CreateAll, key, adding)[i - |removing|];
      }
    }
  }

  /** The screen names of a sequence of requests, in order. */
  function NamesOf(plan: seq<PostRequest>): seq<string>
  {
    if plan == [] then [] else plan[0].screenNames + NamesOf(plan[1..])
  }

  lemma {:induction false} ScreenNameListConcat(a: seq<TwitterUser>, b: seq<TwitterUser>)
    ensures ScreenNameList(a + b) == ScreenNameList(a) + ScreenNameList(b)
  {
    if a != [] {
      assert (a + b)[1..] == a[1..] + b;
      ScreenNameListConcat(a[1..], b);
    }
  }

  lemma {:induction false} PlanOfNames(endpoint: string, key: GroupKey, chunks: seq<seq<TwitterUser>>)
    ensures NamesOf(PlanOf(endpoint, key, chunks)) == ScreenNameList(Flatten(chunks))
  {
    if chunks != [] {
      var plan := PlanOf(endpoint, key, chunks);
      assert plan[1..] == PlanOf(endpoint, key, chunks[1..]);
      PlanOfNames(endpoint, key, chunks[1..]);
      ScreenNameListConcat(chunks[0], Flatten(chunks[1..]));
    }
  }

  /**
   * `addMembers` / `removeMembers` name every given user exactly once, in the given order,
   * across their requests.
   */
  lemma PostPlanNames(endpoint: string, key: GroupKey, users: seq<TwitterUser>)
    ensures NamesOf(PostPlan(endpoint, key, users)) == ScreenNameList(users)
  {
    PlanOfNames(endpoint, key, Chunks(users, ChunkLimit));
    ChunksFlatten(users, ChunkLimit);
  }

  // ---------------------------------------------------------------------------------------
  // Factory

  predicate KnownKind(kind: string)
  {
    kind == EmptyType || kind == FriendsType || kind == FollowersType || kind == ListType
  }

  /**
   * `UserGroupFactory.fromKey(key, client)`: the group of the key's type; an empty key gives
   * the empty group, an unknown type throws.
   */
  function FromKey(key: GroupKey): (r: Result<UserGroup, GroupError>)
    ensures r.Ok? <==> KnownKind(key.kind)
    ensures r.Err? ==> r.error == InvalidGroupType
    ensures r.Ok? ==> KeyOf(r.value) == if key.kind == EmptyType then EmptyKey else key
    ensures r.Ok? ==> (r.value.Empty? <==> key.kind == EmptyType)
  {
    if key.kind == EmptyType then Ok(Empty)
    else if key.kind == FriendsType then NewFriends(key)
    else if key.kind == FollowersType then NewFollowers(key)
    else if key.kind == ListType then NewList(key)
    else Err(InvalidGroupType)
  }

  /** `UserGroupFactory.fromPath(path, defaultScreenName, client)`: parse, then `fromKey`. */
  function FromPath(path: string, defaultScreenName: string): (r: Result<UserGroup, GroupError>)
    ensures r.Ok? <==> Parse(path, defaultScreenName).Ok?
    ensures r.Ok? ==> KeyOf(r.value) == Parse(path, defaultScreenName).value
    ensures r.Err? ==> r == Err(InvalidPath(InvalidGroupPath))
  {
    match Parse(path, defaultScreenName)
    case Err(e) => Err(InvalidPath(e))
    case Ok(key) => FromKey(key)
  }

  /** The keys `all` builds: the owner's friends, followers, then one list per slug. */
  function AllKeys(screenName: string, listSlugs: seq<string>): (keys: seq<GroupKey>)
    ensures |keys| == 2 + |listSlugs|
    ensures forall i :: 0 <= i < |keys| ==> KnownKind(keys[i].kind) && keys[i].kind != EmptyType
  {
    [GroupKey(FriendsType, screenName, FriendsSlug), GroupKey(FollowersType, screenName, FollowersSlug)]
      + seq(|listSlugs|, i requires 0 <= i < |listSlugs| => GroupKey(ListType, screenName, listSlugs[i]))
  }

  /**
   * `UserGroupFactory.all(screenName, listSlugs, client)`: the owner's friends, followers and
   * one list group per slug, in that order.
   */
  function All(screenName: string, listSlugs: seq<string>): (groups: seq<UserGroup>)
    ensures |groups| == 2 + |listSlugs|
    ensures groups[0] == Friends(GroupKey(FriendsType, screenName, FriendsSlug))
    ensures groups[1] == Followers(GroupKey(FollowersType, screenName, FollowersSlug))
    ensures forall i :: 0 <= i < |listSlugs| ==> groups[2 + i] == List(GroupKey(ListType, screenName, listSlugs[i]))
  {
    var keys := AllKeys(screenName, listSlugs);
    seq(|keys|, i requires 0 <= i < |keys| => FromKey(keys[i]).value)
  }

  /**
   * Each group `all` builds for an owner with well-formed list slugs is found again from
   * its own path.
   */
  lemma AllPathsRoundTrip(screenName: string, listSlugs: seq<string>, defaultScreenName: string, i: nat)
    requires IsName(screenName)
    requires forall j :: 0 <= j < |listSlugs| ==> IsName(listSlugs[j]) && KindOfSlug(listSlugs[j]) == ListType
    requires i < 2 + |listSlugs|
    ensures FromPath(PathOf(All(screenName, listSlugs)[i]), defaultScreenName) == Ok(All(screenName, listSlugs)[i])
  {
    var g := All(screenName, listSlugs)[i];
    if i >= 2 {
      assert IsName(listSlugs[i - 2]);
    }
    assert WellFormed(g.key);
    ParseUnparse(g.key, defaultScreenName);
  }
}

/**
 * The part of the `twitter` REST client the user groups use: `get` for paged reads and
 * `post` for list updates. The remote service is a script: `get` answers with the next
 * page of `replies` (and fails once they run out), `post` fails for the requests in
 * `rejected`. Every call is recorded, so the requests a group sends can be stated.
 */
module TwitterClient {
  import opened Wrappers
  import opened UserLists

  /** A request parameter value. */
  datatype Param = Str(s: string) | Num(n: int) | Flag(b: bool)

  /** The options object of a paged request: its fixed parameters and the optional `cursor`. */
  datatype CursorOption = CursorOption(params: map<string, Param>, cursor: Option<int>)

  /** A `get(endpoint, option)` call. */
  datatype GetRequest = GetRequest(endpoint: string, option: CursorOption)

  /** One page of a paged reply: `next_cursor`, the users and the slugs of the lists on it. */
  datatype Page = Page(nextCursor: int, users: seq<TwitterUser>, listSlugs: seq<string>)

  /**
   * A `post` call on a list-members endpoint: the list owner and slug and the screen names
   * carried in the query string.
   */
  datatype PostRequest = PostRequest(endpoint: string, ownerScreenName: string, slug: string, screenNames: seq<string>)

  /** A rejected promise of the client. */
  datatype ApiError = RequestFailed

  class Client {
    /** The pages the service will still answer with, in order. */
    var replies: seq<Page>
    /** The requests the service refuses. */
    const rejected: set<PostRequest>
    /** Every `get` sent so far. */
    var gets: seq<GetRequest>
    /** Every `post` sent so far. */
    var posts: seq<PostRequest>

    constructor (replies: seq<Page>, rejected: set<PostRequest>)
      ensures this.replies == replies && this.rejected == rejected
      ensures gets == [] && posts == []
    {
      this.replies := replies;
      this.rejected := rejected;
      gets := [];
      posts := [];
    }

    /** `client.get(endpoint, option)` */
    method Get(endpoint: string, option: CursorOption) returns (r: Result<Page, ApiError>)
      modifies this
      ensures gets == old(gets) + [GetRequest(endpoint, option)]
      ensures posts == old(posts)
      ensures old(replies) == [] ==> r == Err(RequestFailed) && replies == []
      ensures old(replies) != [] ==> r == Ok(old(replies)[0]) && replies == old(replies)[1..]
    {
      gets := gets + [GetRequest(endpoint, option)];
      if replies == [] {
        return Err(RequestFailed);
      }
      r := Ok(replies[0]);
      replies := replies[1..];
    }

    /** `client.post(url, {})` */
    method Post(request: PostRequest) returns (r: Result<(), ApiError>)
      modifies this
      ensures posts == old(posts) + [request]
      ensures gets == old(gets) && replies == old(replies)
      ensures r == if request in rejected then Err(RequestFailed) else Ok(())
    {
      posts := posts + [request];
      r := if request in rejected then Err(RequestFailed) else Ok(());
    }
  }
}

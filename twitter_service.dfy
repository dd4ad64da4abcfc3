/**
 * The user-facing service of the server: `forceString`, and the group operations of
 * `TwitterUserService` (listing the groups, exporting a group's members, importing a member
 * list into a group). Member lists cross the service boundary as JSON text; the model takes
 * and returns them already decoded.
 */
module TwitterService {
  import opened Wrappers
  import opened UserLists
  import opened GroupPath
  import opened TwitterClient
  import opened UserGroup

  /** A JavaScript value as far as `forceString` inspects it. */
  datatype JsValue = JsString(s: string) | JsUndefined | JsNumber(n: int) | JsBoolean(b: bool)

  /** The errors of the service. */
  datatype ServiceError =
    | NotAString            // "Expected a string: ..."
    | InvalidJson           // `JSON.parse` threw
    | Failed(cause: GroupError)

  /** `forceString(x)`: a string is returned unchanged, anything else throws. */
  function ForceString(x: JsValue): (r: Result<string, ServiceError>)
    ensures r.Ok? <==> x.JsString?
    ensures r.Ok? ==> r.value == x.s
    ensures r.Err? ==> r.error == NotAString
  {
    if !x.JsString? then Err(NotAString) else Ok(x.s)
  }

  /** A service for one logged-in user over one Twitter client. */
  class UserService {
    const client: Client
    const user: TwitterUser

    constructor (client: Client, user: TwitterUser)
      ensures this.client == client && this.user == user
    {
      this.client := client;
      this.user := user;
    }

    /**
     * `allUserGroups()`: the user's owned list slugs are fetched, then the user's friends,
     * followers and lists are built for the user's screen name.
     */
    method AllUserGroups() returns (r: Result<seq<UserGroup>, ServiceError>)
      modifies client
      ensures var w := Walk(SendLocal("lists/ownerships"), OwnershipsOption(user.screenName), -1, old(client.replies));
        r == (if w.result.Ok? then Ok(All(user.screenName, SlugsOf(w.result.value))) else Err(Failed(w.result.error))) &&
        client.gets == old(client.gets) + w.requests && client.replies == w.remaining &&
        client.posts == old(client.posts)
    {
      var slugs := FetchOwnedListSlugs(user.screenName, client);
      if slugs.Err? {
        return Err(Failed(slugs.error));
      }
      r := Ok(All(user.screenName, slugs.value));
    }

    /**
     * `exportUserGroup(path)`: the path is resolved with the user as default owner (an invalid
     * path fails before any request), and the group's members are returned in fetch order.
     */
    method ExportUserGroup(path: string) returns (r: Result<seq<TwitterUser>, ServiceError>)
      modifies client
      ensures FromPath(path, user.screenName).Err? ==>
        r == Err(Failed(FromPath(path, user.screenName).error)) && unchanged(client)
      ensures FromPath(path, user.screenName).Ok? ==>
        var w := MembersWalk(FromPath(path, user.screenName).value, old(client.replies));
        r == (if w.result.Ok? then Ok(UsersOf(w.result.value)) else Err(Failed(w.result.error))) &&
        client.gets == old(client.gets) + w.requests && client.replies == w.remaining &&
        client.posts == old(client.posts)
    {
      var group := FromPath(path, user.screenName);
      if group.Err? {
        return Err(Failed(group.error));
      }
      var users := FetchMembers(group.value, client);
      if users.Err? {
        return Err(Failed(users.error));
      }
      r := Ok(users.value);
    }

    /**
     * `importUserGroup(path, json)`: resolve the path, decode the new member list (`None` when
     * the JSON does not parse), fetch the current members, diff, and patch. Only a list can
     * be patched; a successful import leaves the list holding exactly the new names.
     */
    method ImportUserGroup(path: string, newUsers: Option<seq<TwitterUser>>) returns (r: Result<(), ServiceError>)
      modifies client
      ensures FromPath(path, user.screenName).Err? ==>
        r == Err(Failed(FromPath(path, user.screenName).error)) && unchanged(client)
      ensures FromPath(path, user.screenName).Ok? && newUsers.None? ==> r == Err(InvalidJson) && unchanged(client)
      ensures FromPath(path, user.screenName).Ok? && newUsers.Some? ==>
        var g := FromPath(path, user.screenName).value;
        var w := MembersWalk(g, old(client.replies));
        client.gets == old(client.gets) + w.requests && client.replies == w.remaining &&
        (w.result.Err? ==> r == Err(Failed(w.result.error)) && client.posts == old(client.posts)) &&
        (w.result.Ok? && !g.List? ==>
          r == Err(Failed(if g.Friends? then FriendsPatchUnsupported
                          else if g.Followers? then FollowersPatchUnsupported else NotImplemented)) &&
          client.posts == old(client.posts)) &&
        (w.result.Ok? && g.List? ==>
          var plan := PatchPlan(g.key, DiffUserList(UsersOf(w.result.value), newUsers.value));
          client.posts == old(client.posts) + Sent(plan, client.rejected) &&
          r == (if AllAccepted(plan, client.rejected) then Ok(()) else Err(Failed(Remote(RequestFailed)))))
      ensures r.Ok? ==>
        var current := UsersOf(MembersWalk(FromPath(path, user.screenName).value, old(client.replies)).result.value);
        Apply(ScreenNames(current), client.posts[|old(client.posts)|..]) == ScreenNames(newUsers.value)
    {
      var group := FromPath(path, user.screenName);
      if group.Err? {
        return Err(Failed(group.error));
      }
      if newUsers.None? {
        return Err(InvalidJson);
      }
      var g := group.value;
      var oldUsers := FetchMembers(g, client);
      if oldUsers.Err? {
        return Err(Failed(oldUsers.error));
      }
      var diff := DiffUserList(oldUsers.value, newUsers.value);
      ghost var before := client.posts;
      var patched := Patch(g, diff, client);
      if patched.Err? {
        return Err(Failed(patched.error));
      }
      assert client.posts[|old(client.posts)|..] == Sent(PatchPlan(g.key, diff), client.rejected);
      PatchConverges(g.key, oldUsers.value, newUsers.value);
      r := Ok(());
    }
  }
}

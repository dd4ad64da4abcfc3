/**
 * The browser application's model (`AppModel`): it keeps the auth id and the logged-in
 * user in the browser's key-value storage and asks the server for the user once the OAuth
 * flow has ended.
 */
module AppModel {
  import opened Wrappers
  import opened Auth
  import opened InfraTwitter

  /**
   * The browser's key-value storage, as the two keys the model uses: `authId` and
   * `accessUser`. An absent key is `None`.
   */
  class Storage {
    var authId: Option<string>
    var accessUser: Option<AccessUser>

    constructor Empty()
      ensures authId == None && accessUser == None
    {
      authId := None;
      accessUser := None;
    }
  }

  /** A server request that failed. */
  datatype ApiFailure = RequestFailed

  /** How the server answers `users/name`. */
  datatype UsersNameReply = Resolves | Unknown | Rejects

  /** The server requests the model sends. */
  datatype ApiCall = AuthEnd(authId: string) | UsersName(userAuth: UserAuth)

  /**
   * The server as the model sees it: `twitter-auth-end` ends the OAuth flow of the
   * server's OAuth service unless `authEndRejects`; `users/name` answers as `users` says.
   */
  class ApiServer {
    const oauth: InfraOAuthService
    const authEndRejects: bool
    const users: UsersNameReply
    var calls: seq<ApiCall>

    constructor (oauth: InfraOAuthService, authEndRejects: bool, users: UsersNameReply)
      ensures this.oauth == oauth && this.authEndRejects == authEndRejects && this.users == users
      ensures calls == []
    {
      this.oauth := oauth;
      this.authEndRejects := authEndRejects;
      this.users := users;
      calls := [];
    }

    /** `/api/twitter-auth-end`: the user auth waiting for `authId`, handed out once. */
    method PostAuthEnd(authId: string) returns (r: Result<Option<UserAuth>, ApiFailure>)
      modifies this, oauth
      ensures calls == old(calls) + [AuthEnd(authId)]
      ensures oauth.tokenSecrets == old(oauth.tokenSecrets)
      ensures authEndRejects ==> r == Err(RequestFailed) && oauth.auths == old(oauth.auths)
      ensures !authEndRejects && authId in old(oauth.auths) ==>
        r == Ok(Some(old(oauth.auths)[authId])) && oauth.auths == old(oauth.auths) - {authId}
      ensures !authEndRejects && authId !in old(oauth.auths) ==> r == Ok(None) && oauth.auths == old(oauth.auths)
    {
      calls := calls + [AuthEnd(authId)];
      if authEndRejects {
        return Err(RequestFailed);
      }
      var userAuth := oauth.OAuthEnd(authId);
      return Ok(userAuth);
    }

    /** `/api/users/name`: the access user of `userAuth`, nothing, or a failure. */
    method PostUsersName(userAuth: UserAuth) returns (r: Result<Option<AccessUser>, ApiFailure>)
      modifies this
      ensures calls == old(calls) + [UsersName(userAuth)]
      ensures r == match users
        case Resolves => Ok(Some(AccessUser(userAuth)))
        case Unknown => Ok(None)
        case Rejects => Err(RequestFailed)
    {
      calls := calls + [UsersName(userAuth)];
      match users
      case Resolves => r := Ok(Some(AccessUser(userAuth)));
      case Unknown => r := Ok(None);
      case Rejects => r := Err(RequestFailed);
    }
  }

  /** The state `initState` produces. */
  datatype AppState = AppState(loading: bool, authId: string, accessUser: Option<AccessUser>)

  /** The part of the state `didMount` produces. */
  datatype MountState = MountState(loading: bool, accessUser: Option<AccessUser>)

  /** A stored auth id counts only when it is non-empty. */
  predicate HasAuthId(stored: Option<string>)
  {
    stored.Some? && stored.value != ""
  }

  /** The auth id `getAuthId` settles on: the stored one when it counts, else the new one. */
  function AuthIdOf(stored: Option<string>, newId: string): string
  {
    if HasAuthId(stored) then stored.value else newId
  }

  /**
   * Once a non-empty auth id is stored, every later `getAuthId`, by any model on the same
   * storage, answers with it whatever new id it draws.
   */
  lemma AuthIdSettles(stored: Option<string>, newId: string, laterId: string)
    requires HasAuthId(stored) || newId != ""
    ensures HasAuthId(Some(AuthIdOf(stored, newId)))
    ensures AuthIdOf(Some(AuthIdOf(stored, newId)), laterId) == AuthIdOf(stored, newId)
  {
  }

  /**
   * What `fetchAccessUser` reads and changes: the two storage keys, the user auths the
   * server's OAuth service holds for the browser, and the requests sent so far.
   */
  datatype Session = Session(authId: Option<string>, accessUser: Option<AccessUser>,
                             auths: map<string, UserAuth>, calls: seq<ApiCall>)

  /** The answer of `fetchAccessUser` and the session after it. */
  datatype Fetched = Fetched(result: Result<Option<AccessUser>, ApiFailure>, after: Session)

  /**
   * `fetchAccessUser` on a session, for a server whose `twitter-auth-end` rejects or not and
   * whose `users/name` answers as `users` says.
   */
  function Fetch(s: Session, newId: string, authEndRejects: bool, users: UsersNameReply): (f: Fetched)
    ensures f.after.authId == Some(AuthIdOf(s.authId, newId))
    // Logged in already: the stored user, and no request.
    ensures s.accessUser.Some? ==>
      f.result == Ok(s.accessUser) && f.after.accessUser == s.accessUser
      && f.after.auths == s.auths && f.after.calls == s.calls
    // A user that is answered is stored, and comes from the user auth waiting for the auth id,
    // which the server no longer holds.
    ensures f.result.Ok? && f.result.value.Some? ==> f.after.accessUser == f.result.value
    ensures s.accessUser.None? && f.result.Ok? && f.result.value.Some? ==>
      AuthIdOf(s.authId, newId) in s.auths
      && f.result.value.value == AccessUser(s.auths[AuthIdOf(s.authId, newId)])
      && f.after.auths == s.auths - {AuthIdOf(s.authId, newId)}
    // Otherwise nothing is stored.
    ensures s.accessUser.None? && !(f.result.Ok? && f.result.value.Some?) ==> f.after.accessUser == None
    // The server gives a user auth away at most once.
    ensures f.after.auths == s.auths || f.after.auths == s.auths - {AuthIdOf(s.authId, newId)}
    ensures f.result.Err? ==> s.accessUser.None? && (authEndRejects || users == Rejects)
    ensures s.calls <= f.after.calls
  {
    var id := AuthIdOf(s.authId, newId);
    var settled := s.(authId := Some(id));
    if s.accessUser.Some? then Fetched(Ok(s.accessUser), settled)
    else if authEndRejects then Fetched(Err(RequestFailed), settled.(calls := s.calls + [AuthEnd(id)]))
    else if id !in s.auths then Fetched(Ok(None), settled.(calls := s.calls + [AuthEnd(id)]))
    else
      var userAuth := s.auths[id];
      var asked := settled.(auths := s.auths - {id}, calls := s.calls + [AuthEnd(id), UsersName(userAuth)]);
      match users
      case Resolves => Fetched(Ok(Some(AccessUser(userAuth))), asked.(accessUser := Some(AccessUser(userAuth))))
      case Unknown => Fetched(Ok(None), asked)
      case Rejects => Fetched(Err(RequestFailed), asked)
  }

  /**
   * Once a fetch has answered with a user, every later fetch answers with the same user
   * without asking the server.
   */
  lemma FetchAgain(s: Session, newId: string, authEndRejects: bool, users: UsersNameReply,
                   laterId: string, laterRejects: bool, laterUsers: UsersNameReply)
    requires Fetch(s, newId, authEndRejects, users).result.Ok?
    requires Fetch(s, newId, authEndRejects, users).result.value.Some?
    ensures Fetch(Fetch(s, newId, authEndRejects, users).after, laterId, laterRejects, laterUsers).result
         == Fetch(s, newId, authEndRejects, users).result
    ensures Fetch(Fetch(s, newId, authEndRejects, users).after, laterId, laterRejects, laterUsers).after.calls
         == Fetch(s, newId, authEndRejects, users).after.calls
  {
  }

  class Model {
    const api: ApiServer
    const storage: Storage

    constructor (api: ApiServer, storage: Storage)
      ensures this.api == api && this.storage == storage
    {
      this.api := api;
      this.storage := storage;
    }

    /** The session this model works on. */
    function SessionOf(): Session
      reads this, storage, api, api.oauth
    {
      Session(storage.authId, storage.accessUser, api.oauth.auths, api.calls)
    }

    /** `maybeLoggedIn()`: the storage holds an access user. */
    predicate MaybeLoggedIn()
      reads this, storage
    {
      storage.accessUser.Some?
    }

    /** `getAccessUser()`. */
    function GetAccessUser(): Option<AccessUser>
      reads this, storage
    {
      storage.accessUser
    }

    /** `getAuthId()`: `newId` is the random id drawn when none is stored. */
    method GetAuthId(newId: string) returns (authId: string)
      modifies storage
      ensures authId == AuthIdOf(old(storage.authId), newId)
      ensures storage.authId == Some(authId)
      ensures storage.accessUser == old(storage.accessUser)
    {
      if storage.authId.Some? && storage.authId.value != "" {
        return storage.authId.value;
      }
      authId := newId;
      storage.authId := Some(authId);
    }

    /**
     * `initState()`: loading unless an access user is stored (decided before the auth id
     * is read), the auth id, and no access user yet.
     */
    method InitState(newId: string) returns (state: AppState)
      modifies storage
      ensures state == AppState(!old(storage.accessUser).Some?, AuthIdOf(old(storage.authId), newId), None)
      ensures storage.authId == Some(state.authId)
      ensures storage.accessUser == old(storage.accessUser)
    {
      var loading := !MaybeLoggedIn();
      var authId := GetAuthId(newId);
      state := AppState(loading, authId, None);
    }

    /** `fetchAccessUser()`, as `Fetch` describes it. */
    method FetchAccessUser(newId: string) returns (r: Result<Option<AccessUser>, ApiFailure>)
      modifies storage, api, api.oauth
      ensures Fetched(r, SessionOf()) == old(Fetch(SessionOf(), newId, api.authEndRejects, api.users))
      ensures api.oauth.tokenSecrets == old(api.oauth.tokenSecrets)
    {
      var authId := GetAuthId(newId);
      var stored := GetAccessUser();
      if stored.Some? {
        return Ok(stored);
      }
      var ended := api.PostAuthEnd(authId);
      if ended.Err? {
        return Err(ended.error);
      }
      if ended.value.None? {
        return Ok(None);
      }
      var accessUser := api.PostUsersName(ended.value.value);
      if accessUser.Err? {
        return Err(accessUser.error);
      }
      if accessUser.value.None? {
        return Ok(None);
      }
      storage.accessUser := accessUser.value;
      return Ok(accessUser.value);
    }

    /** `didMount()`: never loading, with the access user `fetchAccessUser` answers. */
    method DidMount(newId: string) returns (r: Result<MountState, ApiFailure>)
      modifies storage, api, api.oauth
      ensures r.Ok? ==> !r.value.loading
      ensures Fetched(if r.Ok? then Ok(r.value.accessUser) else Err(r.error), SessionOf())
           == old(Fetch(SessionOf(), newId, api.authEndRejects, api.users))
      ensures api.oauth.tokenSecrets == old(api.oauth.tokenSecrets)
    {
      var accessUser := FetchAccessUser(newId);
      if accessUser.Err? {
        return Err(accessUser.error);
      }
      return Ok(MountState(false, accessUser.value));
    }
  }

  /** A first visit to the page, with the mock OAuth client behind the server. */
  method FirstVisit(firstId: string) returns (api: ApiServer, storage: Storage, first: AppState,
                                              firstMount: Result<MountState, ApiFailure>)
    ensures fresh(api) && fresh(api.oauth) && fresh(api.oauth.client) && fresh(storage)
    ensures !api.authEndRejects && api.users == Resolves
    ensures !api.oauth.client.deniesRequests && api.oauth.client.screenName == "john_doe"
    ensures api.oauth.client.secrets == map[] && api.oauth.tokenSecrets == map[] && api.oauth.auths == map[]
    ensures first == AppState(true, firstId, None)
    ensures firstMount == Ok(MountState(false, None))
    ensures storage.authId == Some(firstId) && storage.accessUser == None
  {
    var client := new OAuthMock.OAuthClient.Mock();
    var oauth := new InfraOAuthService(client);
    api := new ApiServer(oauth, false, Resolves);
    storage := new Storage.Empty();
    var model := new Model(api, storage);
    first := model.InitState(firstId);
    firstMount := model.DidMount(firstId);
  }

  /** The first visit, then the OAuth request for its auth id and Twitter's callback. */
  method VisitThenLogin(firstId: string, token: string, tokenSecret: string, verifier: string)
    returns (api: ApiServer, storage: Storage, first: AppState, firstMount: Result<MountState, ApiFailure>)
    ensures fresh(api) && fresh(api.oauth) && fresh(storage)
    ensures !api.authEndRejects && api.users == Resolves
    ensures first == AppState(true, firstId, None)
    ensures firstMount == Ok(MountState(false, None))
    ensures storage.authId == Some(firstId) && storage.accessUser == None
    ensures api.oauth.auths == map[firstId := UserAuth(token, tokenSecret, "john_doe")]
  {
    api, storage, first, firstMount := FirstVisit(firstId);
    var redirect := api.oauth.OAuthRequest(first.authId, token, tokenSecret);
    var callback := api.oauth.OAuthCallback(token, verifier);
  }

  /**
   * The visits after the login: the first obtains the user, the next starts not loading
   * and still has the user; both keep the auth id of the first visit.
   */
  method ReturnVisits(api: ApiServer, storage: Storage, authId: string, userAuth: UserAuth,
                      secondId: string, thirdId: string)
    returns (second: AppState, secondUser: Option<AccessUser>, third: AppState, thirdUser: Option<AccessUser>)
    requires !api.authEndRejects && api.users == Resolves
    requires authId != "" && storage.authId == Some(authId) && storage.accessUser == None
    requires api.oauth.auths == map[authId := userAuth]
    modifies storage, api, api.oauth
    ensures second == AppState(true, authId, None) && secondUser == Some(AccessUser(userAuth))
    ensures third == AppState(false, authId, None) && thirdUser == secondUser
  {
    // They come back.
    var model := new Model(api, storage);
    second := model.InitState(secondId);
    var secondMount := model.DidMount(secondId);
    secondUser := model.GetAccessUser();

    // Next time they skip the login.
    model := new Model(api, storage);
    third := model.InitState(thirdId);
    var thirdMount := model.DidMount(thirdId);
    thirdUser := model.GetAccessUser();
  }

  /**
   * The browser's login, end to end: a first visit gets a new auth id and no user; after
   * the OAuth flow for that id, a second visit keeps the auth id and obtains the user; a
   * third visit starts not loading and still has the user.
   */
  method AuthFlow(firstId: string, secondId: string, thirdId: string,
                  token: string, tokenSecret: string, verifier: string)
    returns (first: AppState, firstMount: Result<MountState, ApiFailure>,
             second: AppState, secondUser: Option<AccessUser>,
             third: AppState, thirdUser: Option<AccessUser>)
    requires firstId != ""
    ensures first.loading && first.authId == firstId
    ensures firstMount == Ok(MountState(false, None))
    ensures second.authId == firstId
    ensures secondUser == Some(AccessUser(UserAuth(token, tokenSecret, "john_doe")))
    ensures !third.loading && third.authId == firstId
    ensures thirdUser == secondUser
  {
    var api, storage;
    api, storage, first, firstMount := VisitThenLogin(firstId, token, tokenSecret, verifier);
    second, secondUser, third, thirdUser :=
      ReturnVisits(api, storage, firstId, UserAuth(token, tokenSecret, "john_doe"), secondId, thirdId);
  }
}

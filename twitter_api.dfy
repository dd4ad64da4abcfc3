/**
 * The newer server's OAuth service (`oauthServiceWith` next to `TwitterApiClient`): request
 * tokens are remembered for a limited time, redeemed at most once, and the callback itself
 * answers with the user auth; plus the guard of the `TwitterApiClient` constructor.
 */
module TwitterApi {
  import opened Wrappers
  import opened Auth
  import opened OAuthMock

  /** How long a request token is remembered, in milliseconds: three hours. */
  const Timeout: nat := 3 * 3600 * 1000

  /** The answer to `oauthRequest`. */
  datatype Redirect = Redirect(oauthToken: string, redirect: string)

  class ApiOAuthService {
    const client: OAuthClient
    /** Request tokens waiting for their callback, with their secrets. */
    var tokenSecretMap: map<string, string>

    constructor (client: OAuthClient)
      ensures this.client == client && tokenSecretMap == map[]
    {
      this.client := client;
      tokenSecretMap := map[];
    }

    /** The service waits for `token`, with a non-empty secret the client will accept. */
    predicate Redeemable(token: string)
      reads this, client
    {
      token in tokenSecretMap && tokenSecretMap[token] != ""
      && token in client.secrets && client.secrets[token] == tokenSecretMap[token]
    }

    /**
     * `oauthRequest()`: asks the client for a request token (the fresh `token` and
     * `tokenSecret` it will draw), remembers its secret and answers with the redirect;
     * the timer it starts is the separate `Expire` event. A client error rejects and
     * remembers nothing.
     */
    method OAuthRequest(token: string, tokenSecret: string) returns (r: Result<Redirect, OAuthError>)
      modifies this, client
      ensures client.deniesRequests ==> r == Err(RequestDenied)
      ensures client.deniesRequests ==> tokenSecretMap == old(tokenSecretMap) && client.secrets == old(client.secrets)
      ensures !client.deniesRequests ==> r == Ok(Redirect(token, AuthenticateUrl(token)))
      ensures !client.deniesRequests ==> tokenSecretMap == old(tokenSecretMap)[token := tokenSecret]
      ensures !client.deniesRequests ==> client.secrets == old(client.secrets)[token := tokenSecret]
    {
      var granted := client.GetRequestToken(token, tokenSecret);
      if granted.Err? {
        return Err(granted.error);
      }
      tokenSecretMap := tokenSecretMap[token := tokenSecret];
      return Ok(Redirect(token, AuthenticateUrl(token)));
    }

    /** The timer of a request token fires `Timeout` milliseconds later and forgets it. */
    method Expire(token: string)
      modifies this
      ensures tokenSecretMap == old(tokenSecretMap) - {token}
    {
      tokenSecretMap := tokenSecretMap - {token};
    }

    /**
     * `oauthCallback`: the token is forgotten whatever happens next. A token that was not
     * remembered, or whose secret is empty, rejects without calling the client; otherwise
     * the client redeems it and the user auth is the answer, provided it has a screen name.
     * Nothing is kept.
     */
    method OAuthCallback(token: string, verifier: string) returns (r: Result<UserAuth, OAuthError>)
      modifies this, client
      ensures tokenSecretMap == old(tokenSecretMap) - {token}
      ensures (token !in old(tokenSecretMap) || old(tokenSecretMap)[token] == "") ==>
        r == Err(InvalidAuthFlow) && client.secrets == old(client.secrets)
      ensures token in old(tokenSecretMap) && old(tokenSecretMap)[token] != "" && !old(Redeemable(token)) ==>
        r == Err(Failed) && client.secrets == old(client.secrets)
      ensures old(Redeemable(token)) ==> client.secrets == old(client.secrets) - {token}
      ensures old(Redeemable(token)) && client.screenName == "" ==> r == Err(ScreenNameMissing)
      ensures old(Redeemable(token)) && client.screenName != "" ==>
        r == Ok(UserAuth(token, old(tokenSecretMap)[token], client.screenName))
    {
      var found := token in tokenSecretMap;
      var tokenSecret := if found then tokenSecretMap[token] else "";
      tokenSecretMap := tokenSecretMap - {token};
      if tokenSecret == "" {
        return Err(InvalidAuthFlow);
      }
      var access := client.GetAccessToken(token, tokenSecret, verifier);
      if access.Err? {
        return Err(access.error);
      }
      if access.value.screenName == "" {
        return Err(ScreenNameMissing);
      }
      return Ok(access.value);
    }
  }

  /**
   * The flow against the mock client: the callback answers with the token pair and
   * `john_doe`, and the same token cannot be redeemed a second time.
   */
  method LoginFlow(token: string, tokenSecret: string, verifier: string)
    returns (redirect: Result<Redirect, OAuthError>, first: Result<UserAuth, OAuthError>,
             replay: Result<UserAuth, OAuthError>)
    requires tokenSecret != ""
    ensures redirect == Ok(Redirect(token, AuthenticateUrl(token)))
    ensures first == Ok(UserAuth(token, tokenSecret, "john_doe"))
    ensures replay == Err(InvalidAuthFlow)
  {
    var client := new OAuthClient.Mock();
    var service := new ApiOAuthService(client);
    redirect := service.OAuthRequest(token, tokenSecret);
    first := service.OAuthCallback(token, verifier);
    replay := service.OAuthCallback(token, verifier);
  }

  /** A request token whose timer fired before the callback is rejected. */
  method ExpiredFlow(token: string, tokenSecret: string, verifier: string)
    returns (late: Result<UserAuth, OAuthError>)
    ensures late == Err(InvalidAuthFlow)
  {
    var client := new OAuthClient.Mock();
    var service := new ApiOAuthService(client);
    var redirect := service.OAuthRequest(token, tokenSecret);
    service.Expire(token);
    late := service.OAuthCallback(token, verifier);
  }

  // ---------------------------------------------------------------------------------------
  // TwitterApiClient

  /** A `TwitterApiClient`: the configuration and the user auth it signs requests with. */
  datatype ApiClient = ApiClient(config: TwitterConfig, userAuth: UserAuth)

  datatype ClientError = UserAuthMissing   // the constructor's `unreachable()`

  /** The constructor: fails when the configuration has no user auth. */
  function NewApiClient(config: TwitterConfig): (r: Result<ApiClient, ClientError>)
    ensures r.Ok? <==> config.userAuth.Some?
    ensures r.Ok? ==> r.value.config == config && r.value.userAuth == config.userAuth.value
    ensures r.Err? ==> r.error == UserAuthMissing
  {
    match config.userAuth
    case None => Err(UserAuthMissing)
    case Some(userAuth) => Ok(ApiClient(config, userAuth))
  }

  /** The OAuth signing parameters of a request. */
  datatype OAuthParams = OAuthParams(consumerKey: string, consumerSecret: string, token: string, tokenSecret: string)

  /** `oauth()`: the application's consumer pair with the user's token pair. */
  function OAuthParamsOf(c: ApiClient): OAuthParams
  {
    OAuthParams(c.config.adminAuth.consumerKey, c.config.adminAuth.consumerSecret,
                c.userAuth.token, c.userAuth.tokenSecret)
  }

  /** A client built from a configuration signs as the application on behalf of its user. */
  lemma NewApiClientSigns(config: TwitterConfig)
    requires config.userAuth.Some?
    ensures NewApiClient(config).Ok?
    ensures OAuthParamsOf(NewApiClient(config).value) == OAuthParams(
      config.adminAuth.consumerKey, config.adminAuth.consumerSecret,
      config.userAuth.value.token, config.userAuth.value.tokenSecret)
  {
  }
}

/**
 * The server's OAuth service (`oauthServiceWith` in the server infrastructure): a request
 * token is remembered together with the browser's auth id, redeemed at most once by the
 * callback, and the resulting user auth is handed to the browser exactly once.
 */
module InfraTwitter {
  import opened Wrappers
  import opened Auth
  import opened OAuthMock

  /** What the service remembers about a request token. */
  datatype Pending = Pending(authId: string, tokenSecret: string)

  /** The answer to `oauthRequest`. */
  datatype Redirect = Redirect(oauthToken: string, redirect: string)

  class InfraOAuthService {
    const client: OAuthClient
    /** Request tokens waiting for their callback. */
    var tokenSecrets: map<string, Pending>
    /** Completed logins waiting for the browser, by auth id. */
    var auths: map<string, UserAuth>

    constructor (client: OAuthClient)
      ensures this.client == client
      ensures tokenSecrets == map[] && auths == map[]
      ensures Valid()
    {
      this.client := client;
      tokenSecrets := map[];
      auths := map[];
    }

    /**
     * Every request token the service waits for is still held by the client with the same
     * secret, so its callback will get past the client's secret check.
     */
    predicate Valid()
      reads this, client
    {
      forall token :: token in tokenSecrets ==>
        token in client.secrets && client.secrets[token] == tokenSecrets[token].tokenSecret
    }

    /** The service waits for `token` and the client will accept its secret. */
    predicate Redeemable(token: string)
      reads this, client
    {
      token in tokenSecrets && token in client.secrets && client.secrets[token] == tokenSecrets[token].tokenSecret
    }

    /**
     * `oauthRequest(authId)`: asks the client for a request token (the fresh `token` and
     * `tokenSecret` it will draw), remembers it for `authId` and answers with the redirect.
     * A client error rejects and remembers nothing.
     */
    method OAuthRequest(authId: string, token: string, tokenSecret: string) returns (r: Result<Redirect, OAuthError>)
      modifies this, client
      ensures old(Valid()) ==> Valid()
      ensures auths == old(auths)
      ensures client.deniesRequests ==> r == Err(RequestDenied)
      ensures client.deniesRequests ==> tokenSecrets == old(tokenSecrets) && client.secrets == old(client.secrets)
      ensures !client.deniesRequests ==> r == Ok(Redirect(token, AuthenticateUrl(token)))
      ensures !client.deniesRequests ==> tokenSecrets == old(tokenSecrets)[token := Pending(authId, tokenSecret)]
      ensures !client.deniesRequests ==> client.secrets == old(client.secrets)[token := tokenSecret]
    {
      var granted := client.GetRequestToken(token, tokenSecret);
      if granted.Err? {
        return Err(granted.error);
      }
      tokenSecrets := tokenSecrets[token := Pending(authId, tokenSecret)];
      return Ok(Redirect(token, AuthenticateUrl(token)));
    }

    /**
     * `oauthCallback`: an unknown token rejects before the client is called. A known
     * token is forgotten first and then redeemed at the client; when the client answers
     * with a screen name, the user auth is kept for the token's auth id.
     */
    method OAuthCallback(token: string, verifier: string) returns (r: Result<(), OAuthError>)
      modifies this, client
      ensures old(Valid()) ==> Valid()
      ensures token !in old(tokenSecrets) ==> r == Err(InvalidAuthFlow)
      ensures token !in old(tokenSecrets) ==>
        tokenSecrets == old(tokenSecrets) && auths == old(auths) && client.secrets == old(client.secrets)
      ensures token in old(tokenSecrets) ==> tokenSecrets == old(tokenSecrets) - {token}
      ensures token in old(tokenSecrets) && !old(Redeemable(token)) ==>
        r == Err(Failed) && auths == old(auths) && client.secrets == old(client.secrets)
      ensures old(Redeemable(token)) ==> client.secrets == old(client.secrets) - {token}
      ensures old(Redeemable(token)) && client.screenName == "" ==>
        r == Err(ScreenNameMissing) && auths == old(auths)
      ensures old(Redeemable(token)) && client.screenName != "" ==> r == Ok(())
      ensures old(Redeemable(token)) && client.screenName != "" ==>
        auths == old(auths)[old(tokenSecrets)[token].authId :=
          UserAuth(token, old(tokenSecrets)[token].tokenSecret, client.screenName)]
    {
      if token !in tokenSecrets {
        return Err(InvalidAuthFlow);
      }
      var pending := tokenSecrets[token];
      tokenSecrets := tokenSecrets - {token};
      var access := client.GetAccessToken(token, pending.tokenSecret, verifier);
      if access.Err? {
        return Err(access.error);
      }
      if access.value.screenName == "" {
        return Err(ScreenNameMissing);
      }
      auths := auths[pending.authId := access.value];
      return Ok(());
    }

    /** `oauthEnd(authId)`: hands out the user auth kept for `authId` once, and forgets it. */
    method OAuthEnd(authId: string) returns (r: Option<UserAuth>)
      modifies this
      ensures old(Valid()) ==> Valid()
      ensures tokenSecrets == old(tokenSecrets)
      ensures authId in old(auths) ==> r == Some(old(auths)[authId]) && auths == old(auths) - {authId}
      ensures authId !in old(auths) ==> r == None && auths == old(auths)
    {
      if authId !in auths {
        return None;
      }
      r := Some(auths[authId]);
      auths := auths - {authId};
    }
  }

  /**
   * The whole login flow against the mock client: request, callback, end. The browser
   * receives the token pair with `john_doe`, a second end call receives nothing, and the
   * token cannot be redeemed twice.
   */
  method LoginFlow(authId: string, token: string, tokenSecret: string, verifier: string)
    returns (redirect: Result<Redirect, OAuthError>, first: Option<UserAuth>, second: Option<UserAuth>,
             replay: Result<(), OAuthError>)
    ensures redirect == Ok(Redirect(token, AuthenticateUrl(token)))
    ensures first == Some(UserAuth(token, tokenSecret, "john_doe"))
    ensures second == None
    ensures replay == Err(InvalidAuthFlow)
  {
    var client := new OAuthClient.Mock();
    var service := new InfraOAuthService(client);
    redirect := service.OAuthRequest(authId, token, tokenSecret);
    var callback := service.OAuthCallback(token, verifier);
    first := service.OAuthEnd(authId);
    second := service.OAuthEnd(authId);
    replay := service.OAuthCallback(token, verifier);
  }
}

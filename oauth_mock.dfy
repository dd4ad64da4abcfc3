/**
 * The OAuth client used by both OAuth services (`oauthClientMock`). The client keeps the
 * request tokens it handed out and their secrets; an access-token call must present a
 * token together with its secret, and consumes the token.
 *
 * The mock always grants request tokens and always reports the screen name `john_doe`;
 * the two constants below let the same class also stand for a client that refuses request
 * tokens or answers without a screen name, so that the services' error branches are
 * reachable. The token and secret, drawn at random by the mock, are parameters.
 */
module OAuthMock {
  import opened Wrappers
  import opened Auth

  /** The errors of the OAuth flow. */
  datatype OAuthError =
    | RequestDenied        // the client answered the request-token call with an error
    | Failed               // the access-token call presented a token with the wrong secret
    | InvalidAuthFlow      // the callback named a token the service does not hold
    | ScreenNameMissing    // the access-token answer had no screen name

  /** The page the user is sent to, to authorise a request token. */
  const AuthenticateBase := "https://twitter.com/oauth/authenticate"

  /** The redirect for a request token. */
  function AuthenticateUrl(token: string): (url: string)
    ensures |url| == |AuthenticateBase| + 13 + |token|
  {
    AuthenticateBase + "?oauth_token=" + token
  }

  /** The token can be read back from its redirect. */
  lemma AuthenticateUrlToken(token: string)
    ensures AuthenticateUrl(token)[|AuthenticateBase| + 13..] == token
  {
  }

  /** Different tokens give different redirects. */
  lemma AuthenticateUrlInjective(a: string, b: string)
    requires AuthenticateUrl(a) == AuthenticateUrl(b)
    ensures a == b
  {
    AuthenticateUrlToken(a);
    AuthenticateUrlToken(b);
  }

  /** The answer to a granted request-token call. */
  datatype RequestToken = RequestToken(token: string, tokenSecret: string)

  class OAuthClient {
    /** Request tokens handed out and not yet consumed, with their secrets. */
    var secrets: map<string, string>
    /** The client answers request-token calls with an error. */
    const deniesRequests: bool
    /** The screen name of an access-token answer; empty when the answer has none. */
    const screenName: string

    /** `oauthClientMock()`. */
    constructor Mock()
      ensures secrets == map[] && !deniesRequests && screenName == "john_doe"
    {
      secrets := map[];
      deniesRequests := false;
      screenName := "john_doe";
    }

    /** A client that behaves like the mock except for the two constants. */
    constructor (deniesRequests: bool, screenName: string)
      ensures secrets == map[]
      ensures this.deniesRequests == deniesRequests && this.screenName == screenName
    {
      secrets := map[];
      this.deniesRequests := deniesRequests;
      this.screenName := screenName;
    }

    /** `getOAuthRequestToken`: hands out `token` with `tokenSecret` and remembers them. */
    method GetRequestToken(token: string, tokenSecret: string) returns (r: Result<RequestToken, OAuthError>)
      modifies this
      ensures deniesRequests ==> r == Err(RequestDenied) && secrets == old(secrets)
      ensures !deniesRequests ==> r == Ok(RequestToken(token, tokenSecret))
      ensures !deniesRequests ==> secrets == old(secrets)[token := tokenSecret]
    {
      if deniesRequests {
        return Err(RequestDenied);
      }
      secrets := secrets[token := tokenSecret];
      return Ok(RequestToken(token, tokenSecret));
    }

    /**
     * `getOAuthAccessToken`: fails unless `token` is held with exactly `tokenSecret`;
     * otherwise consumes the token and answers with the token pair and the screen name.
     * The verifier is ignored.
     */
    method GetAccessToken(token: string, tokenSecret: string, verifier: string) returns (r: Result<UserAuth, OAuthError>)
      modifies this
      ensures r.Ok? <==> token in old(secrets) && old(secrets)[token] == tokenSecret
      ensures r.Err? ==> r.error == Failed && secrets == old(secrets)
      ensures r.Ok? ==> r.value == UserAuth(token, tokenSecret, screenName)
      ensures r.Ok? ==> secrets == old(secrets) - {token}
    {
      if !(token in secrets && secrets[token] == tokenSecret) {
        return Err(Failed);
      }
      secrets := secrets - {token};
      return Ok(UserAuth(token, tokenSecret, screenName));
    }
  }
}

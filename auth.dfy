/**
 * The credentials that travel between the OAuth flow, the server's Twitter client and the
 * browser application.
 */
module Auth {
  import opened Wrappers

  /** A user's access token pair and screen name (`TwitterUserAuth`). */
  datatype UserAuth = UserAuth(token: string, tokenSecret: string, screenName: string)

  /** The application's own credentials (`TwitterAuth`): a user auth plus the consumer pair. */
  datatype AdminAuth = AdminAuth(consumerKey: string, consumerSecret: string, user: UserAuth)

  /** `TwitterConfig`: the user auth is optional. */
  datatype TwitterConfig = TwitterConfig(callbackUri: string, adminAuth: AdminAuth, userAuth: Option<UserAuth>)

  /** What the browser keeps once logged in (`AccessUser`). */
  datatype AccessUser = AccessUser(userAuth: UserAuth)
}

# solotter-web core, modelled in Dafny

solotter-web lets a Twitter user manage user groups: the user's friends, the user's followers, and the lists the user owns. A group can be exported as a JSON member list and imported back. Importing diffs the group's current members against the new list, then removes and adds members in chunks of 100.

Around this sits:

- the OAuth login flow, in two server variants (`infra-twitter.ts` and `twitter_api.ts`);
- the browser-side `AppModel`, which keeps an auth id and the logged-in user in key-value storage;
- a `KEY=VALUE` configuration reader, with environment variables taking precedence.

The Dafny project models each core file as its own module.

- `GroupPath` covers the group path format of `user-group.ts`: `@owner/slug` or a bare `slug`, with `_friends` and `_followers` as reserved slugs. It models parse, unparse and their round trips. The regular expression is written out as a grammar (`InGrammar`), and JavaScript's `trim` as `JsText.Trim`.
- `GroupPathV1` covers the older parser of `models/user-group.js`. It does not trim, and rejects the blank path.
- `UserLists` covers `diffUserList`, plus the chunking specification behind `chunkify`.
- `TwitterClient` is a scripted Twitter REST client. It is a class: `get` answers from a queue of pages, and `post` fails exactly on the requests in a given `rejected` set. It logs every request it receives.
- `UserGroup` covers `fetchCursor`, `chunkify`, `fetchOwnedListSlugs`, the four group kinds (friends, followers, list and empty), the factory (`fromKey`, `fromPath`, `all`) and `patch`.
  - `fetchCursor` is a method with a loop, proved against the pure walk `Walk`.
  - Patching is specified as a plan of POST requests (`PatchPlan`). Its effect on the member set is proved: applying the plan to the old members yields exactly the new members (`PatchConverges`).
- `TwitterService` covers `forceString` and the three operations of `TwitterUserService` over the scripted client.
- `Config` covers `readConfigFile`'s parsing, as a loop proved against `ConfigOf`, and `envOrConfig`'s `get` and `getOr`.
- `OAuthMock`, `InfraTwitter` and `TwitterApi` cover the mock OAuth client and both OAuth services.
  - The services are classes whose maps (waiting request tokens, finished user auths) are fields updated in place.
  - Where one applies, the invariant they keep is stated (`InfraOAuthService.Valid`).
  - `TwitterApiClient`'s constructor and its `oauth()` parameters are also modelled.
- `AppModel` covers `src/client/model.ts`.
  - The storage and the in-process API server are objects.
  - `fetchAccessUser` and `didMount` are proved against the pure `Fetch` over a `Session` value.
  - The login scenario of `src/integ.spec.ts` is replayed as `AppModel.AuthFlow`, with its outcome proved.

A behaviour kept as written: the friends group passes its original option to every request (`user-group.ts:219`), not the cursor-carrying local copy. Every page request for friends is therefore the same request. `UserGroup.FetchRequestsByKind` states this, in contrast with followers and lists, which forward `next_cursor`.

## Model

| member | source | states |
|---|---|---|
| JsText.Trim | v2/src/server/models/user-group.ts:121 | the result has no leading or trailing JavaScript white space |
| JsText.TrimIsInfix | v2/src/server/models/user-group.ts:121 | the trimmed string is a contiguous part of the input, and only white space is cut on either side |
| JsText.TrimStartIsSuffix | src/server/config.ts:17-18 | trimming the start removes only a white-space prefix and keeps the rest as a suffix |
| JsText.TrimEndIsPrefix | src/server/config.ts:17-18 | trimming the end removes only a white-space suffix and keeps the rest as a prefix |
| JsText.TrimOfTrimmed | v2/src/server/models/user-group.ts:121 | trimming is the identity on an already trimmed string |
| JsText.TrimEmptyIffBlank | v2/src/server/models/user-group.ts:121-125 | the trimmed path is empty exactly when the input is all white space (the empty-group case) |
| JsText.IndexOf | src/server/config.ts:15-16 | gives the first index holding the character, or -1 exactly when the character does not occur |
| GroupPath.MatchPath | v2/src/server/models/user-group.ts:145-147 | a match is either a bare name or `@` + owner + `/` + slug, with both parts made of word characters and `-` |
| GroupPath.MatchPathIffGrammar | v2/src/server/models/user-group.ts:145-147 | the matcher accepts exactly the strings of the path grammar |
| GroupPath.MatchExplicit | v2/src/server/models/user-group.ts:127-131 | `@h/t` with names h and t captures owner h and slug t |
| GroupPath.MatchBare | v2/src/server/models/user-group.ts:127-131 | a bare name matches with no owner capture and itself as slug |
| GroupPath.KindOfSlug | v2/src/server/models/user-group.ts:133 | `_friends` gives `friends`, `_followers` gives `followers`, and every other slug gives `list` |
| GroupPath.OrElse | v2/src/server/models/user-group.ts:132 | the captured owner if present and non-empty, else the default |
| GroupPath.Parse | v2/src/server/models/user-group.ts:120-135 | a blank path gives the empty key; any other accepted key has a name as slug, the slug's kind, and the default or a name as owner |
| GroupPath.ParseAcceptance | v2/src/server/models/user-group.ts:120-135 | parse succeeds exactly when the path is blank or its trimmed form is in the grammar; otherwise it fails with the invalid-path error |
| GroupPath.ParseExplicit | v2/src/server/models/user-group.ts:127-134 | `@h/t` parses to the key with owner h, slug t and the slug's kind, whatever the default |
| GroupPath.ParseBare | v2/src/server/models/user-group.ts:127-134 | a bare name t parses to the key with the default owner, slug t and t's kind |
| GroupPath.ParseTrimmed | v2/src/server/models/user-group.ts:127-134 | on a trimmed non-empty path, parse fails exactly when the match fails, and otherwise builds the key from the match |
| GroupPath.ParseSlashAt | v2/src/server/models/user-group.ts:127-134 | a path split at its slash into two names parses to owner and slug |
| GroupPath.ParseBareMatched | v2/src/server/models/user-group.ts:127-134 | a trimmed path matching as bare parses with the default owner |
| GroupPath.TrimName | v2/src/server/models/user-group.ts:121 | a name has nothing to trim |
| GroupPath.IndexOfFirst | v2/src/server/models/user-group.ts:145-147 | the first slash of a path found by scanning is the one the grammar splits at |
| GroupPath.Unparse | v2/src/server/models/user-group.ts:137-143 | the empty kind, and only it, unparses to the empty path; every other key starts with `@` |
| GroupPath.ParseUnparse | v2/src/server/models/user-group.ts:120-143 | every well-formed key survives unparse then parse unchanged |
| GroupPath.UnparseParse | v2/src/server/models/user-group.ts:120-143 | an accepted explicit path comes back as its trimmed form after parse then unparse |
| GroupPath.ParseTableFollowers | v1/test/user-group.js:10-13 | `_followers` parses to the followers key of the default user |
| GroupPath.ParseTableList | v1/test/user-group.js:14-17 | `list-001` parses to a list key of the default user |
| GroupPath.ParseTableOwnFollowers | v1/test/user-group.js:18-21 | `@vain0x/_followers` parses to vain0x's followers key |
| GroupPath.ParseTableOwnFriends | v1/test/user-group.js:22-25 | `@vain0x/_friends` parses to vain0x's friends key |
| GroupPath.ParseTableOwnList | v1/test/user-group.js:26-29 | `@vain_zero/my-list` parses to vain_zero's list key |
| GroupPath.ParseBlankExample | v2/src/server/models/user-group.ts:121-125 | a path of white space parses to the empty key |
| GroupPath.ParseTwoSlashesExample | v2/src/server/models/user-group.ts:127-129 | `@a/b/c` is rejected as an invalid path |
| GroupPathV1.ParseV1Acceptance | models/user-group.js:15-24 | the untrimmed parser accepts exactly the grammar; it rejects the empty path and paths with surrounding white space |
| GroupPathV1.ParseV1Bare | models/user-group.js:15-24 | a bare name parses with the default owner |
| GroupPathV1.ParseV1Explicit | models/user-group.js:15-24 | `@h/t` parses to owner h and slug t |
| GroupPathV1.ParseV1AgreesWithParse | models/user-group.js:15-24 | wherever the old parser succeeds, the new parser gives the same key |
| GroupPathV1.ParseV1Examples | v1/test/user-group.js:8-34 | the old parser on rows of the test table, and its rejection of the empty path |
| UserLists.ScreenNames | v2/src/server/models/user-group.ts:79-82 | the set holds exactly the screen names of the users |
| UserLists.ScreenNameList | v2/src/server/models/user-group.ts:337 | the screen names in order, one per user |
| UserLists.Without | v2/src/server/models/user-group.ts:83-86 | keeps exactly the users whose screen name is outside the set |
| UserLists.DiffUserList | v2/src/server/models/user-group.ts:78-88 | removed users are exactly the old users whose name is not new; added users are exactly the new users whose name is not old |
| UserLists.WithoutConcat | v2/src/server/models/user-group.ts:83-86 | filtering distributes over concatenation |
| UserLists.WithoutNothing | v2/src/server/models/user-group.ts:83-86 | filtering by names none of the users have keeps the list unchanged |
| UserLists.ScreenNamesWithout | v2/src/server/models/user-group.ts:83-86 | the names left after filtering are the original names minus the filter set |
| UserLists.WithoutAll | v2/src/server/models/user-group.ts:83-86 | filtering by a set containing every user's name leaves nothing |
| UserLists.DiffSelf | v2/src/server/models/user-group.ts:78-88 | diffing a list against itself removes and adds nobody |
| UserLists.DiffSwap | v2/src/server/models/user-group.ts:78-88 | swapping old and new swaps removed and added |
| UserLists.DiffConverges | v2/src/server/models/user-group.ts:78-88 | old names minus removed names plus added names equal the new names |
| UserLists.DiffDisjoint | v2/src/server/models/user-group.ts:78-88 | no screen name is both removed and added |
| UserLists.DiffRenamedUser | v2/src/server/models/user-group.ts:78-88 | a user whose screen name changed counts as removed under the old name and added under the new one, because the diff is keyed by screen name, not id |
| UserLists.Chunks | v2/src/server/models/user-group.ts:68-76 | no chunks exactly when the input is empty |
| UserLists.FlattenConcat | v2/src/server/models/user-group.ts:68-76 | flattening distributes over concatenation |
| UserLists.ChunksFromFlatten | v2/src/server/models/user-group.ts:70-73 | the chunks taken from a start offset concatenate back to the rest of the input |
| UserLists.ChunksFlatten | v2/src/server/models/user-group.ts:68-76 | the chunks concatenate back to the input, in order |
| UserLists.ChunksFromCount | v2/src/server/models/user-group.ts:70 | the number of chunks from an offset is the rest's length divided by the limit, rounded up |
| UserLists.ChunksFromSizes | v2/src/server/models/user-group.ts:71-72 | every chunk is non-empty and at most the limit; all but the last are full |
| UserLists.ChunksShape | v2/src/server/models/user-group.ts:68-76 | chunk count is the ceiling of length over limit; chunks are non-empty, at most the limit, and all but the last are full |
| UserLists.Chunkify | v2/src/server/models/user-group.ts:68-76 | with a positive limit, the loop returns exactly the chunks; with limit 0, an empty input gives no chunks and any other input fails with "Should be nonempty." |
| TwitterClient.Client.constructor | v2/src/server/models/twitter-service.ts:66-73 | a client with the given scripted replies and rejected posts, and empty logs |
| TwitterClient.Client.Get | v2/src/server/models/user-group.ts:98 | logs the request and answers the next scripted page, or fails when the script is exhausted |
| TwitterClient.Client.Post | v2/src/server/models/user-group.ts:339 | logs the request; fails exactly when the request is one of the rejected ones |
| UserGroup.RequestFor | v2/src/server/models/user-group.ts:51-57 | a cursor-forwarding fetch sends the option with the current cursor; the friends-style fetch sends the original option |
| UserGroup.Walk | v2/src/server/models/user-group.ts:54-65 | at least one request, starting from the first cursor; success consumes one page per request; failure is the remote failure after the script ran out |
| UserGroup.LastPage | v2/src/server/models/user-group.ts:60-61 | the index of the first page whose next cursor is 0, if any |
| UserGroup.ExpectedResultStep | v2/src/server/models/user-group.ts:56-63 | a page with a non-zero cursor is followed by the rest of the walk |
| UserGroup.WalkResult | v2/src/server/models/user-group.ts:56-65 | the walk returns every page up to and including the first with next cursor 0, or fails if there is none |
| UserGroup.WalkStarts | v2/src/server/models/user-group.ts:54 | the loop's starting state is a prefix of the whole walk |
| UserGroup.WalkEnds | v2/src/server/models/user-group.ts:61 | at a page with cursor 0 (or a failure) the walk ends with the requests and pages so far |
| UserGroup.WalkSteps | v2/src/server/models/user-group.ts:57-62 | one more request and page continue the same walk from the page's next cursor |
| UserGroup.WalkForwardsCursors | v2/src/server/models/user-group.ts:62 | each request after the first carries the previous page's next cursor |
| UserGroup.WalkRepeatsOriginal | v2/src/server/models/user-group.ts:219 | with the friends-style fetch, every request is the same original one |
| UserGroup.FetchCursor | v2/src/server/models/user-group.ts:43-66 | a given cursor is an error with no request made; otherwise the result, requests and remaining replies are those of the walk from cursor -1 |
| UserGroup.FetchOwnedListSlugs | v2/src/server/models/user-group.ts:90-106 | the slugs of all walked `lists/ownerships` pages, with the client advanced by that walk |
| UserGroup.PathOf | v2/src/server/models/user-group.ts:207-209 | the empty group's path is empty; other groups' paths start with `@` |
| UserGroup.NewFriends | v2/src/server/models/user-group.ts:198-205 | succeeds exactly for a `friends` key, keeping it; else the invalid-type error |
| UserGroup.NewFollowers | v2/src/server/models/user-group.ts:243-250 | succeeds exactly for a `followers` key, keeping it; else the invalid-type error |
| UserGroup.NewList | v2/src/server/models/user-group.ts:289-296 | succeeds exactly for a `list` key, keeping it; else the invalid-type error |
| UserGroup.MembersWalk | v2/src/server/models/user-group.ts:378-380 | the empty group makes no request and has no members |
| UserGroup.FetchMembers | v2/src/server/models/user-group.ts:211-231 | the users of all walked pages of the group's endpoint; the empty group answers no users without a request |
| UserGroup.FetchRequestsByKind | v2/src/server/models/user-group.ts:211-324 | friends resend the original option on every page; followers and lists start at cursor -1 and forward each next cursor |
| UserGroup.PlanOf | v2/src/server/models/user-group.ts:328-339 | one POST per chunk, to the endpoint, for the group's owner and slug, naming the chunk's screen names |
| UserGroup.Sent | v2/src/server/models/user-group.ts:328-340 | at most the plan; the whole plan when no request is rejected |
| UserGroup.SentAfterAccepted | v2/src/server/models/user-group.ts:328-340 | after an accepted prefix, sending continues with the rest of the plan |
| UserGroup.SentStopsAt | v2/src/server/models/user-group.ts:339 | sending stops right after the first rejected request, and the plan is not all accepted |
| UserGroup.AcceptedExtends | v2/src/server/models/user-group.ts:339 | an accepted request extends the accepted prefix |
| UserGroup.AllAcceptedCons | v2/src/server/models/user-group.ts:328-340 | a plan is accepted exactly when its head and its tail are |
| UserGroup.AllAcceptedConcat | v2/src/server/models/user-group.ts:362-366 | a concatenated plan is accepted exactly when both parts are |
| UserGroup.SentConcat | v2/src/server/models/user-group.ts:362-366 | the second part is sent only if the first is accepted in full |
| UserGroup.PostMembers | v2/src/server/models/user-group.ts:326-360 | posts the chunked plan in order, stopping at the first rejection, and fails exactly when a request is rejected |
| UserGroup.Patch | v2/src/server/models/user-group.ts:233-235 | friends, followers and the empty group refuse with their own errors and send nothing; a list sends the removals then the additions, stopping at the first failure |
| UserGroup.ScreenNamesConcat | v2/src/server/models/user-group.ts:79-82 | names of a concatenation are the union of the names |
| UserGroup.ScreenNameListNames | v2/src/server/models/user-group.ts:337 | the names listed in requests are the user set's names |
| UserGroup.ApplyPlan | v2/src/server/models/user-group.ts:326-360 | a create plan adds exactly the chunked users' names; a destroy plan removes exactly them |
| UserGroup.ApplyConcat | v2/src/server/models/user-group.ts:362-366 | applying two plans in turn equals applying their concatenation |
| UserGroup.PatchConverges | v2/src/server/models/user-group.ts:362-366 | applying the whole patch plan to the old members yields exactly the new members' names |
| UserGroup.PatchPlanShape | v2/src/server/models/user-group.ts:326-366 | destroy requests come first, then create requests; each names 1 to 100 users of the group; an empty diff sends nothing |
| UserGroup.ScreenNameListConcat | v2/src/server/models/user-group.ts:337 | listing names distributes over concatenation |
| UserGroup.PlanOfNames | v2/src/server/models/user-group.ts:328-339 | the names across a plan's requests are the chunked users' names in order |
| UserGroup.PostPlanNames | v2/src/server/models/user-group.ts:328-339 | the requests of a post plan name every user once, in order |
| UserGroup.FromKey | v2/src/server/models/user-group.ts:160-176 | succeeds exactly for the four known kinds, with the group of that kind; the empty kind gives the empty group; unknown kinds are an error |
| UserGroup.FromPath | v2/src/server/models/user-group.ts:151-158 | succeeds exactly when the path parses, with the parsed key's group; else the invalid-path error |
| UserGroup.AllKeys | v2/src/server/models/user-group.ts:183-191 | friends, followers and one key per slug, all of known, non-empty kinds |
| UserGroup.All | v2/src/server/models/user-group.ts:178-194 | the user's friends, then followers, then one list group per slug, in order |
| UserGroup.AllPathsRoundTrip | v2/src/server/models/user-group.ts:178-194 | every listed group's path resolves back to that group |
| TwitterService.ForceString | v2/src/server/models/twitter-service.ts:8-14 | a string passes unchanged; anything else is an error |
| TwitterService.UserService.constructor | v2/src/server/models/twitter-service.ts:67-73 | the service holds the given client and user |
| TwitterService.UserService.AllUserGroups | v2/src/server/models/twitter-service.ts:85-93 | all groups for the user's screen name and owned list slugs, or the fetch failure |
| TwitterService.UserService.ExportUserGroup | v2/src/server/models/twitter-service.ts:95-99 | an invalid path fails before any request; otherwise the group's members in fetch order |
| TwitterService.UserService.ImportUserGroup | v2/src/server/models/twitter-service.ts:101-108 | path errors and undecodable JSON fail without requests; otherwise the old members are fetched, then friends and followers refuse the patch while lists post the diff's plan; on success the list's members become exactly the new names |
| Config.DropCR | src/server/config.ts:13 | drops at most one trailing carriage return |
| Config.Lines | src/server/config.ts:13 | at least one line, and no line contains a line feed |
| Config.LinesSingle | src/server/config.ts:13 | text without a line feed is one line |
| Config.LinesBreakLF | src/server/config.ts:13 | a line feed splits off the line before it |
| Config.LinesBreakCRLF | src/server/config.ts:13 | a carriage-return line feed splits off the line before it, without the carriage return |
| Config.EntryOf | src/server/config.ts:14-19 | a line gives an entry exactly when it is not a comment and contains `=` |
| Config.EntryOfFirstEquals | src/server/config.ts:15-18 | the key is the trimmed text before the first `=` and the value is the trimmed rest |
| Config.Entries | src/server/config.ts:13-20 | at most one entry per line |
| Config.EntriesSnoc | src/server/config.ts:13-20 | one more line adds its entry, if it has one, at the end |
| Config.FromEntriesKeys | src/server/config.ts:21 | every key of the object comes from some entry |
| Config.FromEntriesLastWins | src/server/config.ts:21 | an entry not overridden later determines its key's value |
| Config.ReadConfigText | src/server/config.ts:12-21 | the loop over lines builds exactly the configuration `ConfigOf` specifies |
| Config.ConfigSkipsLine | src/server/config.ts:14-16 | a comment line or a line without `=` changes nothing |
| Config.ConfigLastLineWins | src/server/config.ts:17-21 | a later `key=value` line sets its trimmed key to its trimmed value |
| Config.Get | src/server/config.ts:35-39 | succeeds exactly when the key is non-empty in the environment or the file, with the environment taking precedence; the value is non-empty; otherwise an unspecified-key error |
| Config.GetOr | src/server/config.ts:40 | the value `get` would give, or the alternative where `get` fails |
| OAuthMock.AuthenticateUrl | src/server/infra-twitter.ts:128 | the redirect URL is the authenticate endpoint, the query key and the token |
| OAuthMock.AuthenticateUrlToken | src/server/infra-twitter.ts:128 | the token can be read back from the redirect URL |
| OAuthMock.AuthenticateUrlInjective | src/server/infra-twitter.ts:128 | distinct tokens give distinct redirect URLs |
| OAuthMock.OAuthClient.Mock | src/server/infra-twitter.ts:92-95 | a fresh mock holds no tokens and reports `john_doe` |
| OAuthMock.OAuthClient.constructor | src/server/infra-twitter.ts:92-95 | a client holding no tokens, with the given behaviour |
| OAuthMock.OAuthClient.GetRequestToken | src/server/infra-twitter.ts:96-101 | unless denying, hands out the new token and remembers its secret |
| OAuthMock.OAuthClient.GetAccessToken | src/server/infra-twitter.ts:102-112 | succeeds exactly when the token is held with that secret, then forgets it and reports the user; otherwise fails and keeps every token |
| InfraTwitter.InfraOAuthService.constructor | src/server/infra-twitter.ts:116-120 | no waiting tokens, no finished auths, invariant holds |
| InfraTwitter.InfraOAuthService.OAuthRequest | src/server/infra-twitter.ts:123-135 | keeps the invariant; on success it redirects to the token's authenticate URL and records the token's auth id and secret |
| InfraTwitter.InfraOAuthService.OAuthCallback | src/server/infra-twitter.ts:137-157 | keeps the invariant; an unknown token fails with nothing changed; a known token is consumed, and once redeemed the user auth is stored under its auth id, or the call fails without storing |
| InfraTwitter.InfraOAuthService.OAuthEnd | src/server/infra-twitter.ts:159-166 | hands out the finished auth of the id at most once, deleting it; an unknown id gives nothing |
| InfraTwitter.LoginFlow | src/server/infra-twitter.ts:116-168 | request, callback and end give the user auth once; a second end gives nothing and a replayed callback fails |
| TwitterApi.ApiOAuthService.constructor | src/server/twitter_api.ts:97-100 | no waiting tokens |
| TwitterApi.ApiOAuthService.OAuthRequest | src/server/twitter_api.ts:104-117 | on success, redirects to the token's authenticate URL and remembers its secret |
| TwitterApi.ApiOAuthService.Expire | src/server/twitter_api.ts:113 | the timeout forgets the token and nothing else |
| TwitterApi.ApiOAuthService.OAuthCallback | src/server/twitter_api.ts:119-136 | always forgets the token; a missing or empty secret is an invalid flow; otherwise it yields the user auth, or fails when the client fails or names nobody |
| TwitterApi.LoginFlow | src/server/twitter_api.ts:97-138 | request then callback yields the user auth; replaying the callback fails |
| TwitterApi.ExpiredFlow | src/server/twitter_api.ts:113 | a callback after the timeout fails as an invalid flow |
| TwitterApi.NewApiClient | src/server/twitter_api.ts:150-153 | a client exists exactly when the configuration has a user auth, and holds that auth and the configuration |
| TwitterApi.NewApiClientSigns | src/server/twitter_api.ts:155-159 | requests are signed with the admin consumer key and secret and the user's token and secret |
| AppModel.ApiServer.PostAuthEnd | src/api.ts:15-18 | logs the call; unless the server rejects, it answers the auth service's `oauthEnd` for the id |
| AppModel.ApiServer.PostUsersName | src/api.ts:19-22 | logs the call; answers the access user, no user, or a failure |
| AppModel.AuthIdSettles | src/client/model.ts:13-20 | once an auth id is stored it is reused by every later call |
| AppModel.Fetch | src/client/model.ts:34-54 | the auth id is settled; a stored user is returned without a request; a user answered by the server is the one waiting for the auth id, which the server gives up, and is stored; failures arise only from the server |
| AppModel.FetchAgain | src/client/model.ts:37-41 | after a user has been fetched, a later fetch returns it again without a request |
| AppModel.Model.constructor | src/client/model.ts:6-11 | the model holds the given API client and storage |
| AppModel.Model.GetAuthId | src/client/model.ts:13-20 | returns the stored auth id or stores the new one; the stored user is untouched |
| AppModel.Model.InitState | src/client/model.ts:56-62 | loading exactly when no user is stored, with the settled auth id and no user |
| AppModel.Model.FetchAccessUser | src/client/model.ts:34-54 | result and new session are those `Fetch` specifies for the old session |
| AppModel.Model.DidMount | src/client/model.ts:64-70 | not loading once fetched; the user and new session are those `Fetch` specifies |
| AppModel.FirstVisit | src/integ.spec.ts:33-40 | the first visit stores a fresh auth id, starts loading and ends with nobody logged in |
| AppModel.VisitThenLogin | src/integ.spec.ts:42-46 | after the first visit, the login request and callback leave a user auth waiting under that auth id |
| AppModel.ReturnVisits | src/integ.spec.ts:48-66 | the next visit picks the waiting auth up and stores the user; the visit after starts not loading and finds the same user |
| AppModel.AuthFlow | src/integ.spec.ts:10-68 | the whole scenario: same auth id throughout, logged in after the callback, and still logged in without loading next time |

## Left out

- A `null` or `undefined` group path (`userGroupPath || ''`) is not modelled: paths are strings.
- JSON encoding and decoding are not modelled. Export returns the users; import takes the decoded list, with `None` for text that does not parse.
- `URLSearchParams` query encoding is not modelled. A POST request carries endpoint, owner, slug and the chunk's screen names as fields.
- The projection of raw API users (`id`, `screen_name`, `name`) is not modelled. Pages carry projected users and list slugs.
- A page without `next_cursor` is not modelled. Such a page would make the source loop with an undefined cursor; the model's pages always have one.
- UserLists.Chunkify: the limit is a `nat`, so negative or fractional limits are not modelled. The `continue` on an empty chunk (`user-group.ts:329`, `user-group.ts:348`) cannot trigger after `chunkify` and is omitted.
- `fetchCursor` with the friends fetch loops forever in the source when a page's `next_cursor` is non-zero. The model instead walks a finite script of replies and fails when it is exhausted.
- Reading the configuration file and its `ENOENT` fallback are not modelled. `ReadConfigText` starts from the file's text.
- Object keys such as `__proto__` are not modelled: the configuration is a plain map.
- Real OAuth, HTTP and the network are not modelled: `oauthClientWith`, `apiGET`, `apiPOST`, `TwitterAPIServerClass`, `/statuses/update` and `postTweet`. Only the mock client is modelled.
- OAuthMock.OAuthClient: two constants extend the mock, `deniesRequests` and `screenName` (empty meaning not provided), so the services' error branches are reachable. `Mock` builds the client exactly as in the source.
- Fresh tokens and secrets (`uuid`, `crypto.randomBytes`) and new auth ids are parameters.
- TwitterApi.ApiOAuthService.Expire: the three-hour `setTimeout` is an explicit call; the passage of time itself is not modelled.
- Promises are modelled as sequential calls. The mock client calls back synchronously, so an exception thrown inside a callback (`infra-twitter.ts:109`, `infra-twitter.ts:153`) becomes the rejection of the enclosing promise, an `Err` result.
- Browser key-value storage holds typed slots (auth id, access user) rather than JSON values under string keys.
- AppModel.ApiServer: the router and HTTP layer between the client model and the auth service are not modelled. The auth-end and user-name endpoints are an in-process object whose reply kinds are constants.
- `TwitterAppService`, which reads credentials from the process environment, is not modelled beyond `forceString`.
- The UI components, server start-up and routing, and the v1 routes are not modelled.
- `TwitterConfig.oauthState` is not modelled; nothing in the core reads it.

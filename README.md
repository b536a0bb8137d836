# github-api3-php, request construction

This project models the part of the PHP client library for the GitHub v3 API
that decides what a request looks like before it leaves the library:

- the shared base `GitHub\API\Api`: the API origin, the five verb helpers,
  pagination parameters, null filtering (`buildParams`) and the Accept header
  for custom media types (`setResponseFormatOptions`);
- the two request authenticators: `Basic`, which adds an
  `Authorization: Basic` header carrying the base64 encoding (section 4 of
  RFC 4648) of `username:password`, and `OAuth`, which appends the
  `access_token` parameter to the query string of the URL;
- the routing and validation rules of the resource wrappers for users,
  repositories, organisation repositories, gists, issues, commit comments,
  e-mail addresses and keys, and the memoised sub-resource accessors.

The transport is a sink. A wrapper is a function returning the `Call` it would
hand to the transport: the verb, the absolute URL, the payload and the
options. A wrapper that can throw returns a `Result` instead, and `Failure`
means the exception is raised before anything is sent. A GET sends its
parameters as they are (`Query`). The other verbs send a body that is either
null (`NoBody`) or the JSON encoding of the parameters (`Json`). The JSON
encoding itself is not interpreted. Whether the user is authenticated is an
input boolean.

PHP arrays are `PhpArrays.PhpArray`: an ordered sequence of key/value entries
with distinct keys. Element assignment, `$a[] = v` and `array_merge` are
written out by `Set`, `Push` and `Fold`. Credentials are byte strings, as PHP
strings are. The objects whose fields the library updates in place are
classes with `modifies` clauses:

- the authenticators `Basic` and `OAuth`;
- the request they change, `Http.Request`;
- the wrappers that create their sub-resources on first use: `Repo`, `Gist`
  and `User`.

`buildParams` and `setResponseFormatOptions` are methods proved against the
functions `NonNull` and `FormatOptions`.

Where the model departs from the code as written, the code decides and the
departure is listed below. The one such case is `Repo\Issue::get`, which
requests a milestone instead of the issue it documents. The as-written
version and the corrected version are both modelled; see "## Findings".

## Model

| member | source | states |
|---|---|---|
| GitHubApi.Api.constructor | lib/GitHub/API/Api.php:59-65 | the given transport is kept; when none is given, a new one is created |
| GitHubApi.PathOf | lib/GitHub/API/Api.php:15 | a URL has a path exactly when it starts with `https://api.github.com/`, and the URL is the origin followed by that path |
| GitHubApi.PathOfApiUrl | lib/GitHub/API/Api.php:15 | the path of the origin followed by a path is that path, unchanged |
| GitHubApi.RequestGet | lib/GitHub/API/Api.php:135-138 | a GET of the origin plus the path, with the parameters and the options forwarded unencoded |
| GitHubApi.RequestPost | lib/GitHub/API/Api.php:147-152 | a POST of the origin plus the path; the body is null exactly when there are no parameters, otherwise their encoding |
| GitHubApi.RequestPut | lib/GitHub/API/Api.php:161-166 | as for POST, with PUT |
| GitHubApi.RequestPatch | lib/GitHub/API/Api.php:175-180 | as for POST, with PATCH |
| GitHubApi.RequestDelete | lib/GitHub/API/Api.php:189-194 | as for POST, with DELETE |
| GitHubApi.Body | lib/GitHub/API/Api.php:149 | the body is null exactly when the parameters are empty, otherwise the encoding of the parameters |
| GitHubApi.BuildPageParams | lib/GitHub/API/Api.php:203-208 | the page parameters are exactly `page` then `per_page`, with the given values |
| GitHubApi.NonNull | lib/GitHub/API/Api.php:222-232 | every entry kept comes from the input |
| GitHubApi.BuildParams | lib/GitHub/API/Api.php:222-232 | the loop builds exactly `NonNull` of its input |
| GitHubApi.NonNullPair | lib/GitHub/API/Api.php:226-229 | of two entries with different keys, each is kept exactly when its value is not null, and nothing is left exactly when both are null |
| GitHubApi.NonNullFrom | lib/GitHub/API/Api.php:226-229 | filtering decides on each entry alone, front to back: an entry is kept exactly when its value is not null |
| GitHubApi.NonNullSnoc | lib/GitHub/API/Api.php:226-229 | filtering one more entry at the end appends it exactly when its value is not null |
| GitHubApi.NonNullMembers | lib/GitHub/API/Api.php:222-232 | an entry is in the result exactly when it is in the input and its value is not null |
| GitHubApi.NonNullLookup | lib/GitHub/API/Api.php:222-232 | every key keeps its value unless the value is null, in which case the key is gone |
| GitHubApi.NonNullSubsequence | lib/GitHub/API/Api.php:224-231 | the result is a subsequence of the input, so the key order is kept |
| GitHubApi.NonNullIdempotent | lib/GitHub/API/Api.php:224-231 | filtering twice is filtering once |
| GitHubApi.NonNullEmpty | lib/GitHub/API/Api.php:222-232 | the result is empty exactly when every value is null |
| GitHubApi.FalsyValuesKept | lib/GitHub/API/Api.php:227 | `false`, `0`, `''` and the empty array are kept |
| GitHubApi.BuildParamsExample | lib/GitHub/API/Api.php:222-232 | a null entry between two others is dropped and the others keep their order |
| GitHubApi.FormatOptions | lib/GitHub/API/Api.php:242-250 | the headers gain exactly one entry at the end, the Accept header for the format and resource; earlier headers and every other key are unchanged; the headers key is appended when it was absent |
| GitHubApi.AcceptHeader | lib/GitHub/API/Api.php:247 | defines the media-type line `Accept: application/vnd.github-<resource>.<format>+json` |
| GitHubApi.SetResponseFormatOptions | lib/GitHub/API/Api.php:242-250 | the method computes exactly `FormatOptions` |
| GitHubApi.FormatOptionsFresh | lib/GitHub/API/Api.php:244-247 | options built from nothing hold one headers list with the one Accept header at index 0 |
| PhpArrays.Lookup | lib/GitHub/API/Api.php:244 | a key is missing exactly when it is not among the keys |
| PhpArrays.LookupAt | lib/GitHub/API/Api.php:228 | looking up the key of an entry finds that entry's value |
| PhpArrays.LookupFound | lib/GitHub/API/Api.php:228 | a value found under a key belongs to an entry of the array with that key |
| PhpArrays.NextIndex | lib/GitHub/API/Api.php:247 | the next index is at least 0 and above every integer key |
| PhpArrays.Set | lib/GitHub/API/Api.php:228 | assignment to a present key keeps the key order; to a new key it appends; the key then holds the value and every other key keeps its value |
| PhpArrays.Insert | lib/GitHub/API/User/Repo.php:44 | one step of `array_merge`: a string key ends up with the entry's value and other string keys keep theirs; an integer key is renumbered and appended; existing keys keep their order |
| PhpArrays.Fold | lib/GitHub/API/User/Repo.php:44 | merging entries into an array keeps its keys as a prefix, in order, and adds at most one entry per merged entry |
| PhpArrays.ArrayMerge | lib/GitHub/API/User/Repo.php:44 | `array_merge($a, $b)`: a string key has its value from `$b` when `$b` has it, otherwise its value from `$a` |
| PhpArrays.ArrayMerge3 | lib/GitHub/API/Repo/Issue.php:38 | `array_merge($a, $b, $c)`: a string key has its value from the last of the three arrays that has it |
| PhpArrays.Push | lib/GitHub/API/Api.php:247 | appending keeps every entry and adds one at the end, under the next index |
| PhpArrays.FoldLookupName | lib/GitHub/API/Repo/Issue.php:38 | after `array_merge`, a string key has the value of the last array that holds it |
| PhpArrays.FoldFreshNames | lib/GitHub/API/User/Repo.php:44 | merging new string keys appends them in order |
| PhpArrays.ArrayMergeDisjointNames | lib/GitHub/API/User/Repo.php:44 | `array_merge` of arrays with disjoint string keys is their concatenation |
| PhpArrays.PushKeepsNames | lib/GitHub/API/Repo/Issue.php:38 | appending under an integer key leaves every string key's value as it was |
| Base64.CharOf | lib/GitHub/API/Authentication/Basic.php:65 | every 6-bit value is encoded by a character of the alphabet `A-Z a-z 0-9 + /` |
| Base64.ValueOf | lib/GitHub/API/Authentication/Basic.php:65 | a character has a value exactly when it is in the alphabet, and that value encodes back to it |
| Base64.ValueOfCharOf | lib/GitHub/API/Authentication/Basic.php:65 | decoding a character undoes encoding a 6-bit value |
| Base64.Encode | lib/GitHub/API/Authentication/Basic.php:65 | the encoding of n bytes has 4·⌈n/3⌉ characters |
| Base64.Decode | tests/GitHub/Tests/API/Authentication/BasicTest.php:23 | defines `base64_decode` on padded input, None on malformed input; its round trip with `Encode` is `Base64.DecodeEncode` |
| Base64.EncodeShape | lib/GitHub/API/Authentication/Basic.php:65 | `=` appears exactly in the last one or two positions that pad the encoding, and every other character is from the alphabet |
| Base64.TripleRoundTrip | lib/GitHub/API/Authentication/Basic.php:65 | a group of four characters decodes to the three bytes it encodes |
| Base64.PairRoundTrip | lib/GitHub/API/Authentication/Basic.php:65 | a final group with one `=` decodes to its two bytes |
| Base64.SingleRoundTrip | lib/GitHub/API/Authentication/Basic.php:65 | a final group with `==` decodes to its byte |
| Base64.DecodeGroupThenRest | tests/GitHub/Tests/API/Authentication/BasicTest.php:23 | a full group followed by a decodable rest decodes to the concatenation |
| Base64.DecodeEncode | tests/GitHub/Tests/API/Authentication/BasicTest.php:23 | decoding the encoding gives back every byte string |
| Base64.DecodeEncodeLonger | lib/GitHub/API/Authentication/Basic.php:65 | the round trip extends from the rest of a byte string to three more bytes in front |
| Base64.EncodeUnfold | lib/GitHub/API/Authentication/Basic.php:65 | the encoding proceeds three bytes at a time, from the front |
| Base64.EncodeInjective | lib/GitHub/API/Authentication/Basic.php:65 | distinct byte strings have distinct encodings |
| Explode.Split | tests/GitHub/Tests/API/Authentication/BasicTest.php:22-23 | `explode` yields at least one piece, and no piece holds the separator |
| Explode.JoinSplit | tests/GitHub/Tests/API/Authentication/BasicTest.php:22-23 | joining the pieces with the separator gives the string back |
| Explode.SplitWithoutSeparator | tests/GitHub/Tests/API/Authentication/BasicTest.php:23 | a string without the separator is one piece |
| Explode.SplitAround | tests/GitHub/Tests/API/Authentication/BasicTest.php:22-23 | cutting at one separator and then at the others is cutting at all of them |
| BasicAuth.TokenOf | lib/GitHub/API/Authentication/Basic.php:66 | there is a token exactly when the line starts with the `Authorization: Basic ` prefix, and then the line is that prefix followed by the token |
| BasicAuth.Credentials | lib/GitHub/API/Authentication/Basic.php:65 | `username:password`: the username, one colon byte, then the password |
| BasicAuth.AuthorizationHeader | lib/GitHub/API/Authentication/Basic.php:66 | the header line starts with `Authorization: Basic ` and is followed by exactly the encoded credentials |
| BasicAuth.SplitAtColon | tests/GitHub/Tests/API/Authentication/BasicTest.php:23 | a split exists exactly when there is a colon; the first part has no colon; the parts and the colon make up the input |
| BasicAuth.SplitAtColonCredentials | tests/GitHub/Tests/API/Authentication/BasicTest.php:23-26 | splitting `username:password` at the first colon gives the username and password back when the username has no colon |
| BasicAuth.CredentialsRecovered | tests/GitHub/Tests/API/Authentication/BasicTest.php:19-26 | the header's token is the encoding of the credentials; decoding it and splitting at the colon recovers username and password, for every username without a colon |
| BasicAuth.HeaderPieces | tests/GitHub/Tests/API/Authentication/BasicTest.php:22 | cut at spaces, the header line is the header name, `Basic` and the token |
| BasicAuth.TokenHasNoSpace | lib/GitHub/API/Authentication/Basic.php:65 | the base64 token holds no space |
| BasicAuth.ThreePieces | tests/GitHub/Tests/API/Authentication/BasicTest.php:22 | three separator-free pieces joined by the separator split back into those pieces |
| BasicAuth.ExplodeCredentials | tests/GitHub/Tests/API/Authentication/BasicTest.php:23 | `explode(':')` of the credentials recovers both parts when neither holds a colon |
| BasicAuth.ColonMakesHeaderAmbiguous | lib/GitHub/API/Authentication/Basic.php:65-66 | a colon inside the username moves text into the password without changing the header |
| BasicAuth.Basic.constructor | lib/GitHub/API/Authentication/Basic.php:32-36 | the username and password are those given |
| BasicAuth.Basic.GetUsername | lib/GitHub/API/Authentication/Basic.php:38-41 | returns the stored username |
| BasicAuth.Basic.GetPassword | lib/GitHub/API/Authentication/Basic.php:43-46 | returns the stored password |
| BasicAuth.Basic.SetUsername | lib/GitHub/API/Authentication/Basic.php:48-51 | changes the username and nothing else |
| BasicAuth.Basic.SetPassword | lib/GitHub/API/Authentication/Basic.php:53-56 | changes the password and nothing else |
| BasicAuth.Basic.Authenticate | lib/GitHub/API/Authentication/Basic.php:63-69 | returns the same request, with exactly the Basic header appended; the URL, the earlier headers and the credentials are unchanged |
| Http.Request.constructor | tests/GitHub/Tests/API/Authentication/BasicTest.php:14 | a new request has the URL `/` and no headers |
| Http.Request.GetUrl | lib/GitHub/API/Authentication/OAuth.php:48 | returns the request's URL |
| Http.Request.AddHeader | lib/GitHub/API/Authentication/Basic.php:66 | appends exactly the one header line |
| Http.Request.FromUrl | lib/GitHub/API/Authentication/OAuth.php:51 | the request now targets the given URL |
| OAuthAuth.FirstIndex | lib/GitHub/API/Authentication/OAuth.php:49 | `strpos` is false exactly when the character is absent, otherwise the index of its first occurrence |
| OAuthAuth.QueryPrefix | lib/GitHub/API/Authentication/OAuth.php:49 | the prefix is `&` exactly when the URL holds a `?` that is not its first character, otherwise `?` |
| OAuthAuth.QueryOf | tests/GitHub/Tests/API/Authentication/OAuthTest.php:20-21 | the query is empty for a URL without `?`, and otherwise exactly the text after the first `?` |
| OAuthAuth.WithAccessToken | lib/GitHub/API/Authentication/OAuth.php:51 | the new URL is the old one, the prefix, `access_token=` and the token verbatim, and is exactly 14 + the token's length longer |
| OAuthAuth.QueryOfWithAccessToken | lib/GitHub/API/Authentication/OAuth.php:49-51 | for a URL that does not start with `?`, the new query is the old query, `&` and the token parameter, or only the token parameter when there was no query |
| OAuthAuth.QueryOfExtension | lib/GitHub/API/Authentication/OAuth.php:51 | text appended after a query belongs to that query |
| OAuthAuth.QueryPastPrefix | lib/GitHub/API/Authentication/OAuth.php:49-51 | appending a `?` to a URL without one starts the query there |
| OAuthAuth.FirstIndexOfExtension | lib/GitHub/API/Authentication/OAuth.php:49 | appending text does not move the first occurrence of a character |
| OAuthAuth.FirstIndexPastPrefix | lib/GitHub/API/Authentication/OAuth.php:49 | a character first appended finds its first occurrence at the join |
| OAuthAuth.TokenIsQueryParameter | lib/GitHub/API/Authentication/OAuth.php:46-54 | for a URL that does not start with `?` and a token without `&`, `access_token=<token>` is one of the `&`-separated query parameters |
| OAuthAuth.LeadingQuestionMark | lib/GitHub/API/Authentication/OAuth.php:49 | for a URL that starts with `?`, the token is glued onto the existing query and is not a parameter of its own |
| OAuthAuth.TestRequestGetsToken | tests/GitHub/Tests/API/Authentication/OAuthTest.php:15-23 | for `http://test.com?name=dsyph3r`, the query holds `access_token=KFGDSYGSDHKKGFSFN` |
| OAuthAuth.OAuth.constructor | lib/GitHub/API/Authentication/OAuth.php:24-27 | the token is the one given |
| OAuthAuth.OAuth.GetToken | lib/GitHub/API/Authentication/OAuth.php:29-32 | returns the stored token |
| OAuthAuth.OAuth.SetToken | lib/GitHub/API/Authentication/OAuth.php:34-37 | replaces the stored token |
| OAuthAuth.OAuth.Authenticate | lib/GitHub/API/Authentication/OAuth.php:46-54 | returns the same request, its URL extended by the token parameter; the headers and the stored token are unchanged |
| RepoBase.RepoPathInjective | lib/GitHub/API/Repo/Repo.php:85 | different owners or names give different repository routes, for owners without `/` |
| RepoBase.RepoPath | lib/GitHub/API/Repo/Repo.php:85 | defines the repository route `repos/<username>/<repo>`; `RepoBase.RepoPathInjective` shows it names one repository |
| RepoBase.Get | lib/GitHub/API/Repo/Repo.php:82-87 | a GET of `repos/<username>/<repo>` with no parameters |
| RepoBase.RepoDetails | lib/GitHub/API/Repo/Repo.php:106-109 | `name` holds the repository argument; every other key holds its detail unless that is null, then it is absent; the order is kept; the body is never empty |
| RepoBase.Create | lib/GitHub/API/Repo/Repo.php:103-111 | a POST to the given URL of the repository details |
| RepoBase.Edit | lib/GitHub/API/Repo/Repo.php:127-135 | a PATCH of `repos/<username>/<repo>` with the repository details |
| RepoBase.NameOverridden | lib/GitHub/API/Repo/Repo.php:106 | a caller-supplied `name` is replaced by the repository argument, and the keys sent are those of the filtered details |
| RepoBase.NonNullKeys | lib/GitHub/API/Repo/Repo.php:106-109 | replacing a non-null value by another keeps which keys survive filtering |
| RepoBase.Contributors | lib/GitHub/API/Repo/Repo.php:150-155 | a GET of the contributors route with `anon`, true unless the caller says otherwise; no options |
| RepoBase.Languages | lib/GitHub/API/Repo/Repo.php:169-174 | a GET of the languages route with no parameters; no options |
| RepoBase.Teams | lib/GitHub/API/Repo/Repo.php:188-193 | a GET of the teams route with no parameters; no options |
| RepoBase.Tags | lib/GitHub/API/Repo/Repo.php:207-212 | a GET of the tags route with no parameters; no options |
| RepoBase.Branches | lib/GitHub/API/Repo/Repo.php:226-231 | a GET of the branches route with no parameters; no options |
| RepoBase.Watchers | lib/GitHub/API/Repo/Repo.php:247-252 | a GET of the watchers route with the page parameters; no options |
| RepoBase.UserListPath | lib/GitHub/API/Repo/Repo.php:267-272 | `user/<list>` without a username, `users/<username>/<list>` with one |
| RepoBase.OwnListIsNotANamedList | lib/GitHub/API/Repo/Repo.php:267-272 | the authenticated user's list never has the route of a named user's list |
| RepoBase.Watched | lib/GitHub/API/Repo/Repo.php:265-275 | a GET of the watched list of the authenticated or the named user; no options |
| RepoBase.IsWatched | lib/GitHub/API/Repo/Repo.php:288-298 | the repository argument is ignored: the request is exactly the one `watched` sends for that user |
| RepoBase.Watch | lib/GitHub/API/Repo/Repo.php:311-316 | a PUT of `user/watched/<username>/<repo>` with no body; no options |
| RepoBase.Unwatch | lib/GitHub/API/Repo/Repo.php:329-334 | a DELETE with no body, to the URL `watch` uses; no options |
| RepoBase.Stargazers | lib/GitHub/API/Repo/Repo.php:428-433 | a GET of the stargazers route with the page parameters; no options |
| RepoBase.Starred | lib/GitHub/API/Repo/Repo.php:446-456 | a GET of the starred list of the authenticated or the named user; no options |
| RepoBase.IsStarred | lib/GitHub/API/Repo/Repo.php:469-476 | a GET of `users/starred/<username>/<repo>`; no options |
| RepoBase.Star | lib/GitHub/API/Repo/Repo.php:489-494 | a PUT of `user/starred/<username>/<repo>` with no body; no options |
| RepoBase.Unstar | lib/GitHub/API/Repo/Repo.php:507-512 | a DELETE with no body, to the URL `star` uses; no options |
| RepoBase.IsStarredRouteDiffersFromStar | lib/GitHub/API/Repo/Repo.php:469-494 | the route `isStarred` asks about is never the one `star` changes |
| RepoBase.AllowedRepoTypes | lib/GitHub/API/User/Repo.php:20-22 | `all`, `public` and `private` are always allowed; `member` exactly for user repositories |
| RepoBase.Repo.constructor | lib/GitHub/API/Api.php:59-65 | the inherited constructor keeps the given transport or creates a fresh one when none is given; the kind is the one given, and no sub-resource exists yet (the null property defaults of lib/GitHub/API/Repo/Repo.php) |
| RepoBase.Repo.Commits | lib/GitHub/API/Repo/Repo.php:341-347 | created with the wrapper's transport on the first call, the identical object afterwards |
| RepoBase.Repo.Collaborators | lib/GitHub/API/Repo/Repo.php:354-360 | created on the first call, the identical object afterwards |
| RepoBase.Repo.Downloads | lib/GitHub/API/Repo/Repo.php:367-373 | created on the first call, the identical object afterwards |
| RepoBase.Repo.Forks | lib/GitHub/API/Repo/Repo.php:380-386 | created on the first call, the identical object afterwards |
| RepoBase.Repo.Keys | lib/GitHub/API/Repo/Repo.php:393-399 | created on the first call, the identical object afterwards |
| RepoBase.Repo.Events | lib/GitHub/API/Repo/Repo.php:406-412 | created on the first call, the identical object afterwards |
| UserRepos.AvailableTypesListed | lib/GitHub/API/User/Repo.php:42 | the message joins the allowed types with `, `: `all`, `public`, `private`, `member`, in that order |
| UserRepos.UnsupportedTypeMessage | lib/GitHub/API/User/Repo.php:42 | defines the whitelist error: the rejected type, then the joined list of allowed types |
| UserRepos.OnlyPublicMessage | lib/GitHub/API/User/Repo.php:51 | defines the error for a named user's non-public listing, with the rejected type |
| UserRepos.ListParams | lib/GitHub/API/User/Repo.php:44 | the parameters are exactly `type`, `page`, `per_page`, in that order |
| UserRepos.All | lib/GitHub/API/User/Repo.php:39-57 | a type outside the whitelist throws first; a named user with a type other than `public` throws; otherwise a GET of `user/repos` or `users/<username>/repos` with the list parameters |
| UserRepos.NamedUserDefaultThrows | lib/GitHub/API/User/Repo.php:39-51 | with the default type `all`, listing a named user's repositories always throws |
| UserRepos.NamedRouteRecoversUser | lib/GitHub/API/User/Repo.php:53 | a public listing of a named user succeeds, at a route that names that user |
| UserRepos.Create | lib/GitHub/API/User/Repo.php:72-75 | a POST to `user/repos` of the repository details, with no options; the `name` sent is always the repository argument |
| OrgRepos.All | lib/GitHub/API/Org/Repo.php:38-49 | succeeds exactly when the type is allowed and the caller is authenticated or asks for `public`, with a GET of `orgs/<organization>/repos`; a failure is always the missing exception class |
| OrgRepos.MemberRejected | lib/GitHub/API/Org/Repo.php:20-22 | `member` is rejected whoever asks |
| OrgRepos.UnauthenticatedDefaultRejected | lib/GitHub/API/Org/Repo.php:38-44 | an unauthenticated listing with the default type is rejected |
| OrgRepos.WhitelistBeforeAuthentication | lib/GitHub/API/Org/Repo.php:40-44 | for a type outside the whitelist, authentication makes no difference |
| OrgRepos.PagingIgnored | lib/GitHub/API/Org/Repo.php:38-49 | the page arguments do not reach the request |
| OrgRepos.Create | lib/GitHub/API/Org/Repo.php:65-68 | a POST to `orgs/<organization>/repos` of the repository details, with no options; the `name` sent is always the repository argument |
| Gists.All | lib/GitHub/API/Gist/Gist.php:44-69 | fails exactly for a named user and a type other than `public`, with the only-public message; otherwise a GET of the chosen route with the page parameters |
| Gists.OnlyPublicMessage | lib/GitHub/API/Gist/Gist.php:61 | defines the error for a non-public listing of a named user's gists, with the rejected type in brackets |
| Gists.UnauthenticatedListsPublicGists | lib/GitHub/API/Gist/Gist.php:46-49 | without a username and without authentication, every type lists `gists` |
| Gists.AuthenticatedStarredRoute | lib/GitHub/API/Gist/Gist.php:50-56 | authenticated and without a username, the route is `gists/starred` exactly for the starred type, and `gists` for every other |
| Gists.NamedUserRoute | lib/GitHub/API/Gist/Gist.php:63 | a named user's public gists are at `users/<username>/gists` |
| Gists.Get | lib/GitHub/API/Gist/Gist.php:82-85 | a GET of `gists/<id>`; no options |
| Gists.CreateDetails | lib/GitHub/API/Gist/Gist.php:102-106 | the body is exactly `description`, `public`, `files`, in that order, with the values given |
| Gists.Create | lib/GitHub/API/Gist/Gist.php:100-109 | a POST to `gists` of those three fields, unfiltered; no options |
| Gists.UpdateDetails | lib/GitHub/API/Gist/Gist.php:126-131 | `description` and `files` are present exactly when not null, with their values, nothing else is, and `description` comes before `files` |
| Gists.Update | lib/GitHub/API/Gist/Gist.php:124-134 | a PATCH of `gists/<id>` with the non-null fields; no options |
| Gists.UpdateDefaultsSent | lib/GitHub/API/Gist/Gist.php:124 | by default the empty description and the empty file list are both sent |
| Gists.UpdateBodyNull | lib/GitHub/API/Gist/Gist.php:124-134 | the body is null exactly when both fields are null |
| Gists.Star | lib/GitHub/API/Gist/Gist.php:146-149 | a PUT of `gists/<id>/star` with no body; no options |
| Gists.Unstar | lib/GitHub/API/Gist/Gist.php:161-164 | a DELETE of `gists/<id>/star` with no body; no options |
| Gists.IsStarred | lib/GitHub/API/Gist/Gist.php:176-179 | a GET of `gists/<id>/star`; no options |
| Gists.StarRoutesAgree | lib/GitHub/API/Gist/Gist.php:146-179 | starring, unstarring and checking address the same URL |
| Gists.Fork | lib/GitHub/API/Gist/Gist.php:191-194 | a POST of `gists/<id>/fork` with no body; no options |
| Gists.Delete | lib/GitHub/API/Gist/Gist.php:206-209 | a DELETE of `gists/<id>` with no body; no options |
| Gists.Gist.constructor | lib/GitHub/API/Api.php:59-65 | the given transport, or a new one; no comment wrapper yet |
| Gists.Gist.Comments | lib/GitHub/API/Gist/Gist.php:216-222 | created with the gist wrapper's transport on the first call, the identical object afterwards |
| RepoIssues.ListLookup | lib/GitHub/API/Repo/Issue.php:38 | looking up any name in the merged parameters finds the page argument for `page` and `per_page`, otherwise the sort option if set, otherwise the filter |
| RepoIssues.ListParams | lib/GitHub/API/Repo/Issue.php:38 | `page` and `per_page` come from the page arguments; any other string key comes from the sort options if set there, otherwise from the filters |
| RepoIssues.All | lib/GitHub/API/Repo/Issue.php:35-43 | a GET of the issues route with the merged parameters and no Accept header, whatever the format |
| RepoIssues.PageParamsWin | lib/GitHub/API/Repo/Issue.php:38 | neither the filters nor the sort options can override the page |
| RepoIssues.IssueOptions | lib/GitHub/API/Repo/Issue.php:61 | the options are one Accept header for the `issue` media type in the given format |
| RepoIssues.GetAsWritten | lib/GitHub/API/Repo/Issue.php:59-66 | as written, a GET of `repos/<u>/<r>/milestones/<id>` with the issue Accept header |
| RepoIssues.Get | lib/GitHub/API/Repo/Issue.php:59-66 | corrected: a GET of `repos/<u>/<r>/issues/<id>` with the issue Accept header |
| RepoIssues.Details | lib/GitHub/API/Repo/Issue.php:89-99 | the title first, always, then the optional fields that are not null, in their order |
| RepoIssues.CreateFields | lib/GitHub/API/Repo/Issue.php:93-98 | the optional fields of `create` have string keys other than `title`, so none can replace the title |
| RepoIssues.UpdateFields | lib/GitHub/API/Repo/Issue.php:135-141 | the optional fields of `update` have string keys other than `title`, so none can replace the title |
| RepoIssues.Create | lib/GitHub/API/Repo/Issue.php:87-106 | a POST to the issues route of the title and the non-null optional fields, with the issue Accept header |
| RepoIssues.Update | lib/GitHub/API/Repo/Issue.php:129-149 | a PATCH of the issue of that id with the title, the non-null optional fields and the state, with the issue Accept header |
| RepoIssues.CreateDefaults | lib/GitHub/API/Repo/Issue.php:87-97 | with only a title, the body is the title and the empty label list |
| RepoIssues.CreateFieldsDefaults | lib/GitHub/API/Repo/Issue.php:87-99 | when only the labels are given (the default is the empty list), they are the only optional field kept |
| RepoIssues.UpdateDefaults | lib/GitHub/API/Repo/Issue.php:129-142 | with only a title, the body is the title, the empty label list and the state `open` |
| RepoIssues.UpdateFieldsDefaults | lib/GitHub/API/Repo/Issue.php:129-142 | when only the labels and the state are given (by default the empty list and `open`), they are the only optional fields kept, in that order |
| RepoIssues.CreateSendsNonNull | lib/GitHub/API/Repo/Issue.php:89-99 | an optional field is in the body exactly when it is one of the fields and not null |
| RepoIssues.GetAsWrittenMissesIssue | lib/GitHub/API/Repo/Issue.php:64 | as written, `get` never addresses the issue `update` edits under the same id |
| RepoIssues.GetAddressesUpdatedIssue | lib/GitHub/API/Repo/Issue.php:59-66 | corrected, `get` and `update` address the same issue |
| CommitComments.CommentOptions | lib/GitHub/API/Repo/CommitComment.php:22 | one Accept header for the `commitcomment` media type in the given format |
| CommitComments.CommentsPath | lib/GitHub/API/Repo/CommitComment.php:42-45 | the repository's comments without a sha, the commit's comments with one |
| CommitComments.CommitListingDiffers | lib/GitHub/API/Repo/CommitComment.php:42-45 | a commit's listing is never the repository's listing |
| CommitComments.All | lib/GitHub/API/Repo/CommitComment.php:40-52 | a GET of the chosen comments route with the commit comment Accept header |
| CommitComments.GetComment | lib/GitHub/API/Repo/CommitComment.php:68-75 | a GET of `repos/<u>/<r>/comments/<id>` with the Accept header |
| CommitComments.CreateDetails | lib/GitHub/API/Repo/CommitComment.php:99-105 | the body is exactly `body`, `commit_id`, `line`, `path`, `position`, unfiltered, with `commit_id` the sha |
| CommitComments.Create | lib/GitHub/API/Repo/CommitComment.php:96-112 | a POST to the commit's comments with those fields and the Accept header |
| CommitComments.CreateNamesOneCommit | lib/GitHub/API/Repo/CommitComment.php:101-110 | the commit in the URL is the `commit_id` in the body |
| CommitComments.Update | lib/GitHub/API/Repo/CommitComment.php:130-139 | a PATCH of the comment whose body is exactly the new text, with the Accept header |
| CommitComments.Delete | lib/GitHub/API/Repo/CommitComment.php:153-158 | a DELETE of the comment with no body and no Accept header |
| UserEmails.AddressList | lib/GitHub/API/User/Email.php:45-46 | a single address becomes a one-element list; an array is kept as it is |
| UserEmails.All | lib/GitHub/API/User/Email.php:26-29 | a GET of `user/emails` with no parameters |
| UserEmails.Create | lib/GitHub/API/User/Email.php:43-49 | a POST to `user/emails` of the address list; the body is null only for an empty array, never for a single address; no options |
| UserEmails.Delete | lib/GitHub/API/User/Email.php:61-67 | a DELETE to `user/emails` of the address list, with the same null rule; no options |
| UserEmails.CreateAndDeleteAgree | lib/GitHub/API/User/Email.php:43-67 | adding and removing the same addresses send the same body to the same URL |
| UserEmails.Email.constructor | lib/GitHub/API/Api.php:59-65 | the given transport, or a new one |
| Keys.All | lib/GitHub/API/Key/Key.php:24-27 | a GET of the given URL, unchanged |
| Keys.GetKey | lib/GitHub/API/Key/Key.php:38-41 | a GET of the given URL, unchanged |
| Keys.CreateDetails | lib/GitHub/API/Key/Key.php:57 | the body is exactly `title` then `key`, unfiltered |
| Keys.Create | lib/GitHub/API/Key/Key.php:54-59 | a POST of the title and the key to the given URL |
| Keys.UpdateDetails | lib/GitHub/API/Key/Key.php:75 | each of `title` and `key` is present exactly when not null, no other key is present, `title` comes before `key`, and the body is empty exactly when both are null |
| Keys.Update | lib/GitHub/API/Key/Key.php:72-77 | a PATCH of the non-null fields to the given URL |
| Keys.UpdateNothing | lib/GitHub/API/Key/Key.php:75 | an update giving neither field sends a null body |
| Keys.Delete | lib/GitHub/API/Key/Key.php:87-90 | a DELETE of the given URL with no body |
| Users.UserPath | lib/GitHub/API/User/User.php:67-70 | `user` without a username, `users/<username>` with one |
| Users.UserPathInjective | lib/GitHub/API/User/User.php:67-70 | different users have different routes, none of them the authenticated user's |
| Users.Get | lib/GitHub/API/User/User.php:65-73 | a GET of the user route with no parameters |
| Users.Update | lib/GitHub/API/User/User.php:85-88 | a PATCH of `user` with the details unfiltered |
| Users.Followers | lib/GitHub/API/User/User.php:106-116 | a GET of `<user route>/followers` with the page parameters, 1 and 30 by default; no options |
| Users.Following | lib/GitHub/API/User/User.php:133-143 | a GET of `<user route>/following` with the page parameters; no options |
| Users.IsFollowing | lib/GitHub/API/User/User.php:155-158 | a GET of `user/following/<username>` with no parameters; no options |
| Users.Follow | lib/GitHub/API/User/User.php:170-173 | a PUT of `user/following/<username>` with no body; no options |
| Users.Unfollow | lib/GitHub/API/User/User.php:185-188 | a DELETE of `user/following/<username>` with no body; no options |
| Users.FollowVerbs | lib/GitHub/API/User/User.php:155-188 | checking, following and unfollowing use one URL, with GET, PUT and DELETE |
| Users.User.constructor | lib/GitHub/API/Api.php:59-65 | the given transport, or a new one; no sub-resource yet |
| Users.User.Emails | lib/GitHub/API/User/User.php:195-201 | created with the user wrapper's transport on the first call, the identical object afterwards |
| Users.User.Keys | lib/GitHub/API/User/User.php:208-214 | created on the first call, the identical object afterwards |
| Users.User.Repos | lib/GitHub/API/User/User.php:221-227 | a user repository wrapper, created on the first call, the identical object afterwards |
| Users.User.Gists | lib/GitHub/API/User/User.php:234-240 | created on the first call, the identical object afterwards |
| Users.User.Issues | lib/GitHub/API/User/User.php:247-253 | created on the first call, the identical object afterwards |

## Left out

- The transport, `processResponse` and the credential handling of `Api`
  (`setCredentials`, `login`, `logout`, `clearCredentials`,
  `isAuthenticated`). They live in the `Transport` class, which is not part
  of this model. Authentication is an input boolean, and a wrapper's result
  is the request it would send, not the decoded response.
- JSON encoding. `Json(params)` stands for the encoding of the parameters.
  Only the choice between a null body and an encoded one is modelled.
- The HTTP library's request object. `Http.Request` keeps a URL and a list of
  raw header lines. `fromUrl` stores the URL as given, without parsing it
  into host and resource. `getHeader` is not modelled, so the header split
  in the Basic test works on the whole header line.
- `OAuthAuth.QueryOf`: a URL fragment (`#...`) is not separated from the
  query.
- PHP's key handling: numeric string keys that PHP turns into integers, and
  loose comparison in `in_array`. Type names are compared as strings.
- Identifiers, usernames and shas are strings. PHP's interpolation of
  integer ids into URLs is not modelled.
- `OrgRepos.All`: the PHP code passes an undefined `$params` to the GET, which
  PHP sends as null. The model sends no parameters.
- `OrgRepos.All`: the PHP code throws an unqualified `Exception` inside its own
  namespace, so PHP cannot find the class. The model records the failure
  as `ClassNotFound` with that class name and drops the message.
- `BasicAuth.CredentialsRecovered`: the recovery needs a username without
  a colon. Otherwise the header is ambiguous, as
  `BasicAuth.ColonMakesHeaderAmbiguous` shows. `explode(':')` in the test
  also needs a password without a colon (`BasicAuth.ExplodeCredentials`).
- `GitHubApi.FormatOptions`: the model requires an absent or null
  `headers` option, or an array. That is the representation the library
  itself always builds. PHP's behaviour for a string `headers` value is not
  modelled.
- `UserEmails.Create`: the model requires an array of addresses to have
  distinct keys, which every PHP array has. Only the `Value` encoding of a
  nested array needs this stated.
- The sub-resource classes are modelled only as objects sharing the
  transport, and so are the context files. Their routes are not modelled:
  - `Repo\Commit`, `Repo\Collaborator`, `Repo\Download`, `Repo\Fork`,
    `Repo\Key`, `Repo\Event`;
  - `Gist\Comment`, `User\Key`, `User\Issue`;
  - `Issue\Issue`, `Issue\Comment`, `Issue\Milestone`, `Issue\Label`;
  - `Org\Org`, `Event\Event`.

  Several of them use undefined variables, so their routes have no coherent
  behaviour.
- The media-type constants of `Issue\Issue` (`MIME_TYPE_RESOURCE`,
  `STATE_OPEN`) are copied into `RepoIssues`. `Repo\Issue` inherits them.

## Findings

| source | as written | input that shows it | evidently intended | confidence | as-written member | corrected member |
|---|---|---|---|---|---|---|
| lib/GitHub/API/Repo/Issue.php:64 | `get` requests `repos/<u>/<r>/milestones/<id>` | any id, for example `get("u", "r", "1")` requests `repos/u/r/milestones/1` | the method is documented as getting an issue and links the single-issue endpoint, so `repos/<u>/<r>/issues/<id>`, the URL `update` edits | not executed | RepoIssues.GetAsWritten (RepoIssues.GetAsWrittenMissesIssue) | RepoIssues.Get (RepoIssues.GetAddressesUpdatedIssue) |

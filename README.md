# PHP Retweeter — a Dafny model of its rule logic

The `Retweeter` class (`php_retweeter.php`) wraps an authenticated Twitter
client. Its actions are: verify the credentials, search, retweet a found
tweet with a prefix, tweet text cut to 140 bytes, follow the people who
mention you, and delete all direct messages. This project models that class
over an abstract client. The client (`OAuth.TwitterOAuth`) records every
request it is asked to issue as `Get(endpoint, params)` or
`Post(endpoint, params)` in a trace. Endpoints are an enumeration
(`OAuth.Endpoint`), and `Path()` gives the exact path each one is requested under. It answers the n-th request with
`respond(n)`, an arbitrary function that stands for the remote service.

- `Rules` (rules.dfy) holds the pure logic:
  - `_truncateText` as `Truncate`, with PHP's `substr` as `Substr0`;
  - the shaping of search results as `SearchShape`, with its record-building loop `CollectRecords`;
  - for every action, a *plan*: the requests it issues and the value it returns, as functions of `respond`.
- `PhpRetweeter.Retweeter` (retweeter.dfy) is the class. Each method issues
  its requests through the held client. It is proved to append exactly its
  plan's requests to the trace and to return its plan's result.
- `RuleProperties` (properties.dfy) proves what the plans promise, for every
  input and every behaviour of the remote service.

Strings are byte strings. PHP's `strlen` and `substr` count bytes, so one
`char` stands for one byte. The source's `false` results are modelled as
`NoResult` (for a search) and as `None` (for a lookup). The `exit` in
`verifyAccess` is modelled as the outcome `Fatal`.

Three behaviours of the code worth stating:
- `tweet` decodes HTML entities in the whole composed retweet, prefix and user included (php_retweeter.php:154, 165).
- `searchTweet` asked for more results than the search found still returns exactly the requested number of records. It reads the missing slots as null (php_retweeter.php:187-188; see `SearchPadsPastEnd`).
- `_truncateText` measures and cuts text in bytes, with `strlen` and `substr` (php_retweeter.php:208).

## Model

| member | source | states |
|---|---|---|
| `Rules.Substr0` | php_retweeter.php:208 | `substr($s, 0, $len)` gives a prefix of `s`: at most `len` bytes for `len >= 0`, and `s` minus `-len` trailing bytes (empty if that leaves nothing) for `len < 0` |
| `Rules.Truncate` | php_retweeter.php:205-209 | text within the limit comes back unchanged; longer text ends with the suffix, after a prefix of the text; with room for the suffix, the result is exactly `nChars` long and keeps the first `nChars - |suffix|` bytes |
| `RuleProperties.TruncateWithinBudget` | php_retweeter.php:200-208 | the result is at most `nChars` long if and only if the text was, or the suffix fits the budget |
| `RuleProperties.TruncateIdempotent` | php_retweeter.php:205-209 | when the suffix fits the budget, truncating twice equals truncating once |
| `RuleProperties.TruncateLongText` | php_retweeter.php:202-208 | above the limit, with room for the suffix, the result is `text[..nChars - |suffix|] + suffix` |
| `Rules.CollectRecords` | php_retweeter.php:185-190 | the counted loop yields exactly `results` records, record `i` built from raw slot `i` (a null record past the end) |
| `Rules.DestroyCalls` | php_retweeter.php:95-97 | one `direct_messages/destroy` request per id, the i-th for the i-th id |
| `Rules.FirstOther` | php_retweeter.php:125-128 | it is `None` if and only if every record is by `username`; otherwise it is the least index whose author is not `username` |
| `Rules.SearchShape` | php_retweeter.php:180-194 | what `searchTweet` returns for the raw results and the count. It is `NoResult` when nothing was found or zero records were asked for. For one record it is `One` of the first raw item. Otherwise it is `Many` of the first `results` slots, with null records past the end |
| `RuleProperties.SearchFailsOnlyWhenEmpty` | php_retweeter.php:180-194 | the search gives the failure sentinel if and only if no results came back or zero were requested |
| `RuleProperties.SearchNeverEmptySuccess` | php_retweeter.php:180-191 | a success is one record (only when one was requested) or exactly `results >= 2` records, never empty |
| `RuleProperties.SearchSingle` | php_retweeter.php:182-183 | asking for one result gives the `{from_user, id, text}` of the first raw item |
| `RuleProperties.SearchFirstN` | php_retweeter.php:184-190 | asking for `1 < results <= |raw|` gives the first `results` raw items, in order |
| `RuleProperties.SearchPadsPastEnd` | php_retweeter.php:187-188 | asking for more than was found fills the missing slots with null records |
| `Rules.SearchTweetPlan` | php_retweeter.php:175-195 | the requests of `searchTweet`: one search with `q = query`. Its result is `SearchShape` of that search's answer |
| `PhpRetweeter.Retweeter.SearchTweet` | php_retweeter.php:175-195 | issues one search request for `q = query` and returns the shaped results of its answer |
| `Rules.TweetPlan` | php_retweeter.php:163-166 | the requests of `tweet`: one `statuses/update` post with the status `Truncate(decoded, 140, "...")`. Its result is true if and only if the post's answer has no `error` |
| `PhpRetweeter.Retweeter.Tweet` | php_retweeter.php:163-166 | issues one `statuses/update` post with the decoded, truncated text; returns whether that post reported no error |
| `RuleProperties.TweetPostsTruncatedStatus` | php_retweeter.php:163-166 | the one posted status is at most 140 bytes long. It is the decoded text when that fits, otherwise its first 137 bytes followed by "...". The result is true if and only if the post reports no error |
| `Rules.SearchAndRetweetPlan` | php_retweeter.php:146-155 | the requests of `searchAndRetweet`: the one-record search, then, only if it found something, the plan of `tweet` for the decoded `prefix @user: text` (`RetweetText`). Its result is false without a record, otherwise the tweet's result |
| `PhpRetweeter.Retweeter.SearchAndRetweet` | php_retweeter.php:146-155 | issues the search and then, only on success, the tweet of the plan; returns the plan's result |
| `RuleProperties.SearchAndRetweetNoResult` | php_retweeter.php:149-151 | a search with no results issues no post and returns false |
| `RuleProperties.SearchAndRetweetFirstResult` | php_retweeter.php:150-154 | otherwise exactly one post follows the search: the truncated decoding of `prefix @user: text` of the first result. The result is that post's success |
| `Rules.FollowRetweetersPlan` | php_retweeter.php:120-137 | the requests of `followRetweeters`: the search for `@username` with three slots. Then `FollowCandidatePlan` for the first slot not by `username` (`FirstOther`), and for no later slot. Its result is false without a candidate, true when already friends, and otherwise whether the create reported no error |
| `PhpRetweeter.Retweeter.FollowRetweeters` | php_retweeter.php:120-137 | the loop over the mentions issues exactly the plan's requests and returns the plan's result |
| `Rules.FollowCandidatePlan` | php_retweeter.php:130-135 | for one candidate: a `friendships/exists` check of `username` and the candidate. If it answers truthy, nothing more is sent and the result is true. Otherwise one `friendships/create` post for the candidate follows, and the result is whether that post reported no error |
| `PhpRetweeter.Retweeter.FollowCandidate` | php_retweeter.php:130-135 | issues exactly the requests of `FollowCandidatePlan` and returns its result |
| `RuleProperties.FollowSearchesMentions` | php_retweeter.php:121-123 | the first request is the search for `@username`, and at most two requests follow it |
| `RuleProperties.FollowNoCandidate` | php_retweeter.php:123-137 | a failed search, or three slots all by `username`, give false after the search alone |
| `RuleProperties.FollowFirstCandidate` | php_retweeter.php:125-135 | only the first slot by another author is acted on. If the friendship check answers falsy, one `friendships/create` is posted and the result is that post's success. Otherwise the result is true and nothing is posted |
| `RuleProperties.FollowNeverSelf` | php_retweeter.php:126-132 | no friendship check or follow is ever issued for `username` itself |
| `RuleProperties.FollowReachesNullSlot` | php_retweeter.php:121-131 | for a non-empty `username`, when the search found one or two items and all are by `username`, the friendship check goes to the null record of the first missing slot, i.e. to the empty user |
| `Rules.DeleteAllDirectCalls` | php_retweeter.php:92-98 | the requests of `deleteAllDirect`: the `direct_messages` get with count 200, then `DestroyCalls` of the ids in its answer |
| `PhpRetweeter.Retweeter.DeleteAllDirect` | php_retweeter.php:92-98 | appends the list request and then the destroys of every fetched id to the trace |
| `PhpRetweeter.Retweeter.DestroyEach` | php_retweeter.php:95-97 | the loop appends one `direct_messages/destroy` post per id to the trace, in order, and nothing else |
| `RuleProperties.DeleteAllDirectShape` | php_retweeter.php:93-97 | one `direct_messages` get with count 200, then exactly one destroy per fetched id, in fetch order, and nothing else |
| `RuleProperties.DeleteAllDirectIgnoresOutcomes` | php_retweeter.php:95-97 | the requests depend only on the fetched list, never on what a destroy answers |
| `RuleProperties.DestroyCallsAppend` | php_retweeter.php:89-97 | destroying two fetched batches one after the other issues the destroys of their concatenation |
| `Rules.VerifyAccessPlan` | php_retweeter.php:105-112 | the requests of `verifyAccess`: one `account/verify_credentials` get. Its outcome is `Fatal` (the `exit`) when the answer has `error`, and `Verified` otherwise |
| `PhpRetweeter.Retweeter.VerifyAccess` | php_retweeter.php:105-112 | issues the verification request and returns its plan's outcome |
| `RuleProperties.VerifyAccessFatalOnError` | php_retweeter.php:107-111 | one `account/verify_credentials` get; the outcome is `Fatal` if and only if it reports an error |
| `Rules.LookupUsersPlan` | php_retweeter.php:79-87 | the requests of `lookupUsers`: one `users/lookup` get with `screen_name`. It returns the body itself when its PHP `count` (`LookupCount`: a list's length, 1 for an object) is positive and it has no `errors` member, and `None` (the source's `false`) otherwise |
| `PhpRetweeter.Retweeter.LookupUsers` | php_retweeter.php:79-87 | issues exactly the lookup request of its plan and returns its plan's result: the body, or `None` |
| `RuleProperties.LookupUsersResult` | php_retweeter.php:80-86 | one `users/lookup` get for the name. A list body is returned if and only if it is non-empty. An object body is returned if and only if it has no `errors` member. What is returned is the body itself |
| `PhpRetweeter.Retweeter.constructor` | php_retweeter.php:47-49 | the client is created fresh, with an empty trace. It gets the consumer pair and the access pair, in the client's own argument order |

## Left out

- The OAuth library and the HTTP transport: they are an abstract client that records requests and answers from `respond`. How it signs requests, and how it encodes parameters (a null one among them), is not modelled.
- `getCall` and `postCall`: they only pass a request through to the client. `postCall` posts to an undefined variable instead of its `$post` argument. Neither is modelled.
- `sleep(2)` in `searchAndRetweet`: a delay with no logical content.
- `exit` in `verifyAccess`: process termination is the outcome `Fatal`. The model does not stop the caller.
- `htmlspecialchars_decode`: the field `htmlDecode` of `Retweeter`, passed to its constructor and left uninterpreted. No entity table is modelled.
- PHP null slots: a record read past the end of the search results is `NullRec`, whose fields are empty strings. This matches how PHP's loose `==` and string concatenation treat null.
- `FollowRetweeters`: PHP's loose `==` between usernames is modelled as exact equality. Two different numeric strings such as "10" and "1e1" would compare equal in PHP.
- `FollowRetweeters`: falling off the end of the loop returns null in PHP. It is modelled as `false`.
- `SearchTweet`: the requested count is a `nat`. A negative count, which PHP turns into an empty and therefore falsy array, is not modelled.
- `DeleteAllDirect`: the fetched body is modelled as its list of message ids. If the fetch fails, PHP would iterate over the fields of the error object. The model treats that case as whatever list `respond` supplies.
- Default arguments: `$prefix = 'RT'` of `searchAndRetweet` and `$results = 1` of `searchTweet` are passed explicitly (`SearchAndRetweet` takes the prefix, `SearchTweet` the count). `$nChars = 140, $suffix = "..."` of `_truncateText` are the constants `Budget` and `Ellipsis`, which `tweet` uses.
- `LookupUsers`: `count` of an object body is 1, as in PHP 5 and 7. PHP 8 raises an error there instead, and that is not modelled.
- Multibyte text: every `char` is one byte, as PHP's `strlen` and `substr` count them.
- `example.php`: configuration and wiring with no logic.

/**
 * The rule logic of the retweeter: text truncation, the shaping of search
 * results, and, for every action, the requests it issues and the value it
 * returns, written as functions of the remote service's answers.
 *
 * Strings are byte strings: PHP's `strlen` and `substr` count bytes, so one
 * element of a `string` here stands for one byte.
 */
module Rules {
  import opened Wrappers
  import opened OAuth

  /** Default character budget and suffix of the truncation helper. */
  const Budget: int := 140
  const Ellipsis: string := "..."

  function Min(a: int, b: int): int { if a <= b then a else b }
  function Max(a: int, b: int): int { if a >= b then a else b }

  // ---------------------------------------------------------------------
  // Truncation
  // ---------------------------------------------------------------------

  /**
   * PHP's `substr(s, 0, len)`: a non-negative length keeps at most `len`
   * leading bytes; a negative one drops `-len` bytes from the end, and gives
   * the empty string (or `false`, which concatenates as empty) when that
   * leaves nothing.
   */
  function Substr0(s: string, len: int): (r: string)
    ensures r <= s
    ensures |r| == if len >= 0 then Min(len, |s|) else Max(0, |s| + len)
  {
    if len >= 0 then s[..Min(len, |s|)]
    else if |s| + len > 0 then s[..|s| + len]
    else ""
  }

  /**
   * `_truncateText`: text longer than `nChars` is cut so that the kept part
   * plus `suffix` fits the budget; shorter text is returned unchanged.
   */
  function Truncate(text: string, nChars: int, suffix: string): (r: string)
    ensures |text| <= nChars ==> r == text
    ensures |text| > nChars ==> |suffix| <= |r| && r[|r| - |suffix|..] == suffix
    ensures |text| > nChars ==> r[..|r| - |suffix|] <= text
    ensures |text| > nChars && nChars >= |suffix| ==>
              |r| == nChars && r[..nChars - |suffix|] == text[..nChars - |suffix|]
  {
    if |text| > nChars then Substr0(text, nChars - |suffix|) + suffix else text
  }

  // ---------------------------------------------------------------------
  // Search results
  // ---------------------------------------------------------------------

  /** A search result as `searchTweet` hands it out: `{user, id, text}`. */
  datatype Rec = Rec(user: string, id: string, text: string)

  /** What `searchTweet` returns: `false`, one record, or a list of records. */
  datatype SearchOutcome = NoResult | One(rec: Rec) | Many(recs: seq<Rec>)

  function ToRec(raw: RawResult): Rec { Rec(raw.fromUser, raw.id, raw.text) }

  /**
   * A record read from a slot past the end of the raw results: PHP reads
   * `null` there and every field of it is `null`, which compares and
   * concatenates as the empty string.
   */
  const NullRec: Rec := Rec("", "", "")

  /** Slot `i` of the raw results, as the record-building loop reads it. */
  function Slot(raw: seq<RawResult>, i: nat): Rec
  {
    if i < |raw| then ToRec(raw[i]) else NullRec
  }

  /** The first `n` slots, in order. */
  function Slots(raw: seq<RawResult>, n: nat): seq<Rec>
  {
    seq(n, i requires 0 <= i < n => Slot(raw, i))
  }

  /** The result of `searchTweet` for the raw results and the requested count. */
  function SearchShape(raw: seq<RawResult>, results: nat): SearchOutcome
  {
    if |raw| > 0 && results != 0 then
      if results == 1 then One(ToRec(raw[0])) else Many(Slots(raw, results))
    else NoResult
  }

  /** The counted loop of `searchTweet` that builds the list of records. */
  method CollectRecords(raw: seq<RawResult>, results: nat) returns (recs: seq<Rec>)
    ensures |recs| == results
    ensures forall i :: 0 <= i < results ==> recs[i] == Slot(raw, i)
  {
    recs := [];
    for i := 0 to results
      invariant |recs| == i
      invariant forall j :: 0 <= j < i ==> recs[j] == Slot(raw, j)
    {
      recs := recs + [Slot(raw, i)];
    }
  }

  // ---------------------------------------------------------------------
  // The requests each action issues
  // ---------------------------------------------------------------------

  /** The requests an action issues, and the value it returns. */
  datatype Plan<T> = Plan(calls: seq<Call>, result: T)

  /** The outcome of `verifyAccess`: `true`, or the process exits. */
  datatype Access = Verified | Fatal

  function SearchCall(query: string): Call { Get(Search, map["q" := query]) }
  function UpdateCall(status: string): Call { Post(StatusesUpdate, map["status" := status]) }
  function ExistsCall(userA: string, userB: string): Call
  {
    Get(FriendshipsExists, map["user_a" := userA, "user_b" := userB])
  }
  function CreateCall(user: string): Call { Post(FriendshipsCreate, map["id" := user]) }
  function ListMessagesCall(): Call { Get(DirectMessages, map["count" := "200"]) }
  function DestroyCall(id: string): Call { Post(DirectMessagesDestroy, map["id" := id]) }
  function VerifyCall(): Call { Get(VerifyCredentials, map[]) }
  function LookupCall(username: string): Call { Get(UsersLookup, map["screen_name" := username]) }

  /** One destroy request per message id, in the order the ids were fetched. */
  function DestroyCalls(ids: seq<string>): (r: seq<Call>)
    ensures |r| == |ids|
    ensures forall i :: 0 <= i < |ids| ==> r[i] == DestroyCall(ids[i])
  {
    if ids == [] then [] else [DestroyCall(ids[0])] + DestroyCalls(ids[1..])
  }

  /**
   * The index the follow loop stops at: the first record whose author is not
   * `username`; the records before it are all skipped as self-mentions.
   */
  function FirstOther(username: string, recs: seq<Rec>): (r: Option<nat>)
    ensures r.None? <==> forall i :: 0 <= i < |recs| ==> recs[i].user == username
    ensures r.Some? ==> r.value < |recs| && recs[r.value].user != username
    ensures r.Some? ==> forall i :: 0 <= i < r.value ==> recs[i].user == username
  {
    if recs == [] then None
    else if recs[0].user != username then Some(0)
    else
      match FirstOther(username, recs[1..])
      case None => None
      case Some(j) => Some(j + 1)
  }

  /** `tweet`: the requests and the result, for the already decoded text. */
  function TweetPlan(decoded: string, respond: nat -> Response, k: nat): Plan<bool>
  {
    Plan([UpdateCall(Truncate(decoded, Budget, Ellipsis))], !respond(k).error)
  }

  /** `searchTweet`: one search request, then the shaped results. */
  function SearchTweetPlan(query: string, results: nat, respond: nat -> Response, k: nat): Plan<SearchOutcome>
  {
    Plan([SearchCall(query)], SearchShape(respond(k).results, results))
  }

  /** The text `searchAndRetweet` tweets for a found record. */
  function RetweetText(prefix: string, rec: Rec): string
  {
    prefix + " " + "@" + rec.user + ": " + rec.text
  }

  /** `searchAndRetweet`: search for one record, then tweet it with the prefix. */
  function SearchAndRetweetPlan(query: string, prefix: string, decode: string -> string,
                                respond: nat -> Response, k: nat): Plan<bool>
  {
    match SearchShape(respond(k).results, 1)
    case One(rec) =>
      var t := TweetPlan(decode(RetweetText(prefix, rec)), respond, k + 1);
      Plan([SearchCall(query)] + t.calls, t.result)
    case _ => Plan([SearchCall(query)], false)
  }

  /**
   * `followRetweeters`: search three mentions of `@username`, skip the
   * user's own, and act on the first other author only.
   */
  function FollowRetweetersPlan(username: string, respond: nat -> Response, k: nat): Plan<bool>
  {
    var search := SearchCall("@" + username);
    match SearchShape(respond(k).results, 3)
    case Many(recs) =>
      (match FirstOther(username, recs)
       case None => Plan([search], false)
       case Some(j) =>
         var follow := FollowCandidatePlan(username, recs[j].user, respond, k + 1);
         Plan([search] + follow.calls, follow.result))
    case _ => Plan([search], false)
  }

  /**
   * The body of the follow loop for a candidate `user`: check the
   * friendship and, unless the answer is truthy, follow `user`.
   */
  function FollowCandidatePlan(username: string, user: string, respond: nat -> Response, k: nat): Plan<bool>
  {
    var check := ExistsCall(username, user);
    if respond(k).truthy then Plan([check], true)
    else Plan([check, CreateCall(user)], !respond(k + 1).error)
  }

  /** `deleteAllDirect`: fetch up to 200 messages, then destroy each one. */
  function DeleteAllDirectCalls(respond: nat -> Response, k: nat): seq<Call>
  {
    [ListMessagesCall()] + DestroyCalls(respond(k).messages)
  }

  /** `verifyAccess`: one verification request; an error ends the process. */
  function VerifyAccessPlan(respond: nat -> Response, k: nat): Plan<Access>
  {
    Plan([VerifyCall()], if respond(k).error then Fatal else Verified)
  }

  /**
   * PHP's `count` of a lookup body: the length of a list, and 1 for an
   * object (which does not implement `Countable`).
   */
  function LookupCount(body: Response): nat
  {
    if body.isObject then 1 else |body.users|
  }

  /**
   * `lookupUsers`: the body itself when it counts at least one element and
   * has no `errors` member (a list never has one), otherwise `false`.
   */
  function LookupUsersPlan(username: string, respond: nat -> Response, k: nat): Plan<Option<Response>>
  {
    var body := respond(k);
    Plan([LookupCall(username)], if LookupCount(body) > 0 && !body.errors then Some(body) else None)
  }
}

/**
 * What the retweeter's rules promise, stated over the functions of `Rules`
 * for every input and every behaviour of the remote service.
 */
module RuleProperties {
  import opened Wrappers
  import opened OAuth
  import opened Rules

  // ---------------------------------------------------------------------
  // Truncation
  // ---------------------------------------------------------------------

  /** The result fits the budget exactly when the text did or the suffix does. */
  lemma TruncateWithinBudget(text: string, nChars: int, suffix: string)
    ensures |Truncate(text, nChars, suffix)| <= nChars <==> (|text| <= nChars || |suffix| <= nChars)
  {
  }

  /** With room for the suffix, truncating twice is truncating once. */
  lemma TruncateIdempotent(text: string, nChars: int, suffix: string)
    requires |suffix| <= nChars
    ensures Truncate(Truncate(text, nChars, suffix), nChars, suffix) == Truncate(text, nChars, suffix)
  {
  }

  /** Above the limit the result is the kept prefix followed by the suffix. */
  lemma TruncateLongText(text: string, nChars: int, suffix: string)
    requires |suffix| <= nChars < |text|
    ensures Truncate(text, nChars, suffix) == text[..nChars - |suffix|] + suffix
  {
  }

  // ---------------------------------------------------------------------
  // Search results
  // ---------------------------------------------------------------------

  /** The failure sentinel comes exactly from an empty search or a zero count. */
  lemma SearchFailsOnlyWhenEmpty(raw: seq<RawResult>, results: nat)
    ensures SearchShape(raw, results) == NoResult <==> (|raw| == 0 || results == 0)
  {
  }

  /** A success is never empty: one record, or exactly `results` records (at least two). */
  lemma SearchNeverEmptySuccess(raw: seq<RawResult>, results: nat)
    ensures SearchShape(raw, results).One? ==> results == 1
    ensures SearchShape(raw, results).Many? ==>
              results >= 2 && |SearchShape(raw, results).recs| == results
  {
  }

  /** One requested result is the first raw item's `{from_user, id, text}`. */
  lemma SearchSingle(raw: seq<RawResult>)
    requires |raw| > 0
    ensures SearchShape(raw, 1) == One(Rec(raw[0].fromUser, raw[0].id, raw[0].text))
  {
  }

  /** Several results are the first `results` raw items, in order. */
  lemma SearchFirstN(raw: seq<RawResult>, results: nat)
    requires |raw| > 0 && 1 < results <= |raw|
    ensures SearchShape(raw, results).Many?
    ensures |SearchShape(raw, results).recs| == results
    ensures forall i :: 0 <= i < results ==>
              SearchShape(raw, results).recs[i] == Rec(raw[i].fromUser, raw[i].id, raw[i].text)
  {
  }

  /** Asking for more than was found pads the list with null records. */
  lemma SearchPadsPastEnd(raw: seq<RawResult>, results: nat)
    requires 0 < |raw| < results
    ensures SearchShape(raw, results).Many?
    ensures forall i :: |raw| <= i < results ==> SearchShape(raw, results).recs[i] == NullRec
  {
  }

  // ---------------------------------------------------------------------
  // tweet
  // ---------------------------------------------------------------------

  /**
   * `tweet` posts exactly one status update, the decoded text truncated to
   * 140 bytes with "..." counted inside, and succeeds iff that post reports
   * no error.
   */
  lemma TweetPostsTruncatedStatus(decoded: string, respond: nat -> Response, k: nat)
    ensures var p := TweetPlan(decoded, respond, k);
            && |p.calls| == 1
            && p.calls[0] == Post(StatusesUpdate, map["status" := p.calls[0].params["status"]])
            && p.calls[0].endpoint.Path() == "statuses/update"
            && |p.calls[0].params["status"]| <= 140
            && (|decoded| <= 140 ==> p.calls[0].params["status"] == decoded)
            && (|decoded| > 140 ==> p.calls[0].params["status"] == decoded[..137] + "...")
            && (p.result <==> !respond(k).error)
  {
  }

  // ---------------------------------------------------------------------
  // searchAndRetweet
  // ---------------------------------------------------------------------

  /** A failed search posts nothing and returns false. */
  lemma SearchAndRetweetNoResult(query: string, prefix: string, decode: string -> string,
                                 respond: nat -> Response, k: nat)
    requires respond(k).results == []
    ensures SearchAndRetweetPlan(query, prefix, decode, respond, k) == Plan([SearchCall(query)], false)
  {
  }

  /**
   * Otherwise it tweets `prefix @user: text` of the first result, decoded
   * and truncated, and returns what that tweet returns.
   */
  lemma SearchAndRetweetFirstResult(query: string, prefix: string, decode: string -> string,
                                    respond: nat -> Response, k: nat)
    requires respond(k).results != []
    ensures var first := respond(k).results[0];
            var text := decode(prefix + " @" + first.fromUser + ": " + first.text);
            SearchAndRetweetPlan(query, prefix, decode, respond, k)
              == Plan([SearchCall(query), UpdateCall(Truncate(text, Budget, Ellipsis))], !respond(k + 1).error)
  {
    var first := respond(k).results[0];
    assert RetweetText(prefix, ToRec(first)) == prefix + " @" + first.fromUser + ": " + first.text;
  }

  // ---------------------------------------------------------------------
  // followRetweeters
  // ---------------------------------------------------------------------

  /** It always starts with one search for three mentions of `@username`, and issues at most two more requests. */
  lemma FollowSearchesMentions(username: string, respond: nat -> Response, k: nat)
    ensures var p := FollowRetweetersPlan(username, respond, k);
            1 <= |p.calls| <= 3 && p.calls[0] == Get(Search, map["q" := "@" + username])
            && p.calls[0].endpoint.Path() == "http://search.twitter.com/search.json"
  {
  }

  /** A failed search, or mentions all by `username` itself, give false and nothing more. */
  lemma FollowNoCandidate(username: string, respond: nat -> Response, k: nat)
    requires var raw := respond(k).results;
             raw == [] || forall i :: 0 <= i < 3 ==> Slot(raw, i).user == username
    ensures FollowRetweetersPlan(username, respond, k) == Plan([SearchCall("@" + username)], false)
  {
  }

  /**
   * With a candidate, it checks the friendship with the FIRST mention whose
   * author is not `username`: if they are not friends yet it posts one
   * follow and returns whether that succeeded, otherwise it returns true
   * with no post. Later mentions are never looked at.
   */
  lemma FollowFirstCandidate(username: string, respond: nat -> Response, k: nat, j: nat)
    requires respond(k).results != []
    requires j < 3 && Slot(respond(k).results, j).user != username
    requires forall i :: 0 <= i < j ==> Slot(respond(k).results, i).user == username
    ensures var u := Slot(respond(k).results, j).user;
            var check := ExistsCall(username, u);
            FollowRetweetersPlan(username, respond, k)
              == if respond(k + 1).truthy then Plan([SearchCall("@" + username), check], true)
                 else Plan([SearchCall("@" + username), check, CreateCall(u)], !respond(k + 2).error)
  {
    var recs := Slots(respond(k).results, 3);
    var first := FirstOther(username, recs);
    assert recs[j].user != username;
    assert first == Some(j);
  }

  /** It never asks about, nor follows, `username` itself. */
  lemma FollowNeverSelf(username: string, respond: nat -> Response, k: nat)
    ensures var p := FollowRetweetersPlan(username, respond, k);
            forall i :: 1 <= i < |p.calls| ==>
              (p.calls[i].Get? ==> p.calls[i].params == map["user_a" := username, "user_b" := p.calls[i].params["user_b"]]
                                   && p.calls[i].params["user_b"] != username)
              && (p.calls[i].Post? ==> p.calls[i].params.Keys == {"id"} && p.calls[i].params["id"] != username)
  {
  }

  /**
   * With fewer than three mentions the missing slots are null records, so a
   * mention by `username` alone still leads to a friendship check, against
   * the empty (null) user.
   */
  lemma FollowReachesNullSlot(username: string, respond: nat -> Response, k: nat)
    requires username != ""
    requires 0 < |respond(k).results| < 3
    requires forall i :: 0 <= i < |respond(k).results| ==> respond(k).results[i].fromUser == username
    ensures var p := FollowRetweetersPlan(username, respond, k);
            |p.calls| >= 2 && p.calls[1] == ExistsCall(username, "")
  {
    var raw := respond(k).results;
    forall i | 0 <= i < |raw|
      ensures Slot(raw, i).user == username
    {
    }
    FollowFirstCandidate(username, respond, k, |raw|);
  }

  // ---------------------------------------------------------------------
  // deleteAllDirect
  // ---------------------------------------------------------------------

  /**
   * One fetch of up to 200 messages, then exactly one destroy per fetched
   * id, in fetch order, and no other request.
   */
  lemma DeleteAllDirectShape(respond: nat -> Response, k: nat)
    ensures var ids := respond(k).messages;
            var calls := DeleteAllDirectCalls(respond, k);
            && |calls| == 1 + |ids|
            && calls[0] == Get(DirectMessages, map["count" := "200"])
            && calls[0].endpoint.Path() == "direct_messages"
            && (forall c :: c in calls[1..] ==> c.endpoint.Path() == "direct_messages/destroy")
            && forall i :: 0 <= i < |ids| ==> calls[1 + i] == Post(DirectMessagesDestroy, map["id" := ids[i]])
  {
  }

  /** The destroys do not depend on what any destroy answers: only the fetch matters. */
  lemma DeleteAllDirectIgnoresOutcomes(respond: nat -> Response, other: nat -> Response, k: nat)
    requires respond(k).messages == other(k).messages
    ensures DeleteAllDirectCalls(respond, k) == DeleteAllDirectCalls(other, k)
  {
  }

  /** Deleting two fetched batches issues the destroys of their concatenation. */
  lemma DestroyCallsAppend(a: seq<string>, b: seq<string>)
    ensures DestroyCalls(a + b) == DestroyCalls(a) + DestroyCalls(b)
  {
  }

  // ---------------------------------------------------------------------
  // verifyAccess and lookupUsers
  // ---------------------------------------------------------------------

  /** One verification request; the outcome is fatal exactly when it reports an error. */
  lemma VerifyAccessFatalOnError(respond: nat -> Response, k: nat)
    ensures var p := VerifyAccessPlan(respond, k);
            p.calls == [Get(VerifyCredentials, map[])]
            && p.calls[0].endpoint.Path() == "account/verify_credentials"
            && (p.result == Fatal <==> respond(k).error)
  {
  }

  /**
   * One `users/lookup` request for the name. A list body is returned exactly
   * when it is non-empty; an object body exactly when it has no `errors`
   * member. Whatever is returned is the body itself.
   */
  lemma LookupUsersResult(username: string, respond: nat -> Response, k: nat)
    ensures var p := LookupUsersPlan(username, respond, k);
            p.calls == [Get(UsersLookup, map["screen_name" := username])]
            && p.calls[0].endpoint.Path() == "users/lookup"
            && (!respond(k).isObject ==> (p.result.Some? <==> |respond(k).users| > 0 && !respond(k).errors))
            && (respond(k).isObject ==> (p.result.Some? <==> !respond(k).errors))
            && (p.result.Some? ==> p.result.value == respond(k))
  {
  }
}

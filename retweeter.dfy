/**
 * The `Retweeter` facade. Each action issues its requests through the held
 * OAuth client, and each method is proved to append exactly the requests of
 * its plan in `Rules` to the client's trace and to return the plan's result.
 */
module PhpRetweeter {
  import opened Wrappers
  import opened OAuth
  import opened Rules
  import RuleProperties

  class Retweeter {
    /** The authenticated client, created once by the constructor. */
    const oauth: TwitterOAuth
    /** PHP's `htmlspecialchars_decode`, which is not part of this model. */
    const htmlDecode: string -> string

    /**
     * Hands the four credentials to the client, in the client's own order
     * (consumer pair first, access pair second).
     */
    constructor (accessToken: string, accessTokenSecret: string,
                 consumerKey: string, consumerSecret: string,
                 respond: nat -> Response, htmlDecode: string -> string)
      ensures fresh(oauth) && oauth.calls == [] && oauth.respond == respond
      ensures oauth.consumerKey == consumerKey && oauth.consumerSecret == consumerSecret
      ensures oauth.oauthToken == accessToken && oauth.oauthTokenSecret == accessTokenSecret
      ensures this.htmlDecode == htmlDecode
    {
      oauth := new TwitterOAuth(consumerKey, consumerSecret, accessToken, accessTokenSecret, respond);
      this.htmlDecode := htmlDecode;
    }

    /** Looks up a user; `None` stands for the source's `false`. */
    method LookupUsers(username: string) returns (users: Option<Response>)
      modifies oauth
      ensures var p := LookupUsersPlan(username, oauth.respond, |old(oauth.calls)|);
              oauth.calls == old(oauth.calls) + p.calls && users == p.result
    {
      var response := oauth.Get(UsersLookup, map["screen_name" := username]);
      if LookupCount(response) > 0 && !response.errors {
        users := Some(response);
      } else {
        users := None;
      }
    }

    /** Destroys every fetched direct message, ignoring each destroy's answer. */
    method DeleteAllDirect()
      modifies oauth
      ensures oauth.calls == old(oauth.calls) + DeleteAllDirectCalls(oauth.respond, |old(oauth.calls)|)
    {
      ghost var before := oauth.calls;
      var results := oauth.Get(DirectMessages, map["count" := "200"]);
      DestroyEach(results.messages);
      assert oauth.calls == before + ([ListMessagesCall()] + DestroyCalls(results.messages));
    }

    /** The `foreach` of `deleteAllDirect`: one destroy request per id, in order. */
    method DestroyEach(ids: seq<string>)
      modifies oauth
      ensures oauth.calls == old(oauth.calls) + DestroyCalls(ids)
    {
      for i := 0 to |ids|
        invariant oauth.calls == old(oauth.calls) + DestroyCalls(ids[..i])
      {
        var destroyed := oauth.Post(DirectMessagesDestroy, map["id" := ids[i]]);
        assert ids[..i + 1] == ids[..i] + [ids[i]];
        RuleProperties.DestroyCallsAppend(ids[..i], [ids[i]]);
      }
      assert ids[..|ids|] == ids;
    }

    /** Verifies the credentials; `Fatal` stands for the source's `exit`. */
    method VerifyAccess() returns (access: Access)
      modifies oauth
      ensures var p := VerifyAccessPlan(oauth.respond, |old(oauth.calls)|);
              oauth.calls == old(oauth.calls) + p.calls && access == p.result
    {
      var response := oauth.Get(VerifyCredentials, map[]);
      if response.error {
        return Fatal;
      }
      return Verified;
    }

    /** Follows the first author other than `username` among three mentions. */
    method FollowRetweeters(username: string) returns (ok: bool)
      modifies oauth
      ensures var p := FollowRetweetersPlan(username, oauth.respond, |old(oauth.calls)|);
              oauth.calls == old(oauth.calls) + p.calls && ok == p.result
    {
      ghost var raw := oauth.respond(|oauth.calls|).results;
      var results := SearchTweet("@" + username, 3);
      assert results == SearchShape(raw, 3);
      if !results.Many? {
        return false;
      }
      var recs := results.recs;
      for i := 0 to |recs|
        invariant oauth.calls == old(oauth.calls) + [SearchCall("@" + username)]
        invariant forall j :: 0 <= j < i ==> recs[j].user == username
      {
        // do not attempt to follow self
        if recs[i].user == username {
          continue;
        }
        assert FirstOther(username, recs) == Some(i);
        ok := FollowCandidate(username, recs[i].user);
        return;
      }
      return false;
    }

    /** The check-and-follow step of `followRetweeters` for one candidate. */
    method FollowCandidate(username: string, user: string) returns (ok: bool)
      modifies oauth
      ensures var p := FollowCandidatePlan(username, user, oauth.respond, |old(oauth.calls)|);
              oauth.calls == old(oauth.calls) + p.calls && ok == p.result
    {
      // check if friendship exists, if it doesn't, create one
      var friends := oauth.Get(FriendshipsExists, map["user_a" := username, "user_b" := user]);
      if !friends.truthy {
        var created := oauth.Post(FriendshipsCreate, map["id" := user]);
        return !created.error;
      }
      // already following
      return true;
    }

    /** Searches one record and tweets it as `prefix @user: text`. */
    method SearchAndRetweet(query: string, prefix: string) returns (ok: bool)
      modifies oauth
      ensures var p := SearchAndRetweetPlan(query, prefix, htmlDecode, oauth.respond, |old(oauth.calls)|);
              oauth.calls == old(oauth.calls) + p.calls && ok == p.result
    {
      var found := SearchTweet(query, 1);
      if !found.One? {
        return false;
      }
      ok := Tweet(prefix + " " + "@" + found.rec.user + ": " + found.rec.text);
    }

    /** Posts the decoded and truncated text as a status update. */
    method Tweet(tweet: string) returns (ok: bool)
      modifies oauth
      ensures var p := TweetPlan(htmlDecode(tweet), oauth.respond, |old(oauth.calls)|);
              oauth.calls == old(oauth.calls) + p.calls && ok == p.result
    {
      var response := oauth.Post(StatusesUpdate, map["status" := Truncate(htmlDecode(tweet), Budget, Ellipsis)]);
      ok := !response.error;
    }

    /** Searches for `query` and shapes up to `results` records. */
    method SearchTweet(query: string, results: nat) returns (found: SearchOutcome)
      modifies oauth
      ensures var p := SearchTweetPlan(query, results, oauth.respond, |old(oauth.calls)|);
              oauth.calls == old(oauth.calls) + p.calls && found == p.result
    {
      var response := oauth.Get(Search, map["q" := query]);
      var searchResult := response.results;
      if |searchResult| > 0 && results != 0 {
        if results == 1 {
          found := One(ToRec(searchResult[0]));
        } else {
          var multipleResults := CollectRecords(searchResult, results);
          assert multipleResults == Slots(searchResult, results);
          found := Many(multipleResults);
        }
      } else {
        found := NoResult;
      }
    }
  }
}

/**
 * The authenticated client the retweeter talks to. The OAuth library and the
 * HTTP transport behind it are not part of this model: the client only
 * records every request it is asked to issue, in order, and answers each one
 * from an oracle that stands for the remote service.
 */
module OAuth {

  /** Request parameters, as the facade writes them (numbers in decimal text). */
  type Params = map<string, string>

  /** The API endpoints the retweeter calls. */
  datatype Endpoint =
    | Search
    | StatusesUpdate
    | FriendshipsExists
    | FriendshipsCreate
    | DirectMessages
    | DirectMessagesDestroy
    | VerifyCredentials
    | UsersLookup
  {
    /** The path the endpoint is requested under. */
    function Path(): string
    {
      match this
      case Search => "http://search.twitter.com/search.json"
      case StatusesUpdate => "statuses/update"
      case FriendshipsExists => "friendships/exists"
      case FriendshipsCreate => "friendships/create"
      case DirectMessages => "direct_messages"
      case DirectMessagesDestroy => "direct_messages/destroy"
      case VerifyCredentials => "account/verify_credentials"
      case UsersLookup => "users/lookup"
    }
  }

  /** One request issued through the client. */
  datatype Call =
    | Get(endpoint: Endpoint, params: Params)
    | Post(endpoint: Endpoint, params: Params)

  /** One item of the `results` array of a search body. */
  datatype RawResult = RawResult(fromUser: string, id: string, text: string)

  /**
   * A decoded response body, reduced to the parts the facade looks at:
   *  - isObject: the body is a JSON object (it decodes to a PHP object),
   *              not a JSON list (which decodes to a PHP array);
   *  - error:    the body has a truthy `error` member;
   *  - results:  the `results` array of a search body (empty when absent);
   *  - truthy:   the body itself is truthy (a bare JSON `true`, or any object);
   *  - messages: the ids of the messages when the body is a direct-message list;
   *  - users:    the user records when the body is a user list;
   *  - errors:   the body is an object with an `errors` member.
   */
  datatype Response = Response(
    isObject: bool,
    error: bool,
    results: seq<RawResult>,
    truthy: bool,
    messages: seq<string>,
    users: seq<string>,
    errors: bool)

  class TwitterOAuth {
    const consumerKey: string
    const consumerSecret: string
    const oauthToken: string
    const oauthTokenSecret: string
    /** The remote service: its answer to the n-th request (counted from 0). */
    const respond: nat -> Response
    /** Every request issued so far, oldest first. */
    var calls: seq<Call>

    constructor (consumerKey: string, consumerSecret: string,
                 oauthToken: string, oauthTokenSecret: string,
                 respond: nat -> Response)
      ensures this.consumerKey == consumerKey && this.consumerSecret == consumerSecret
      ensures this.oauthToken == oauthToken && this.oauthTokenSecret == oauthTokenSecret
      ensures this.respond == respond
      ensures calls == []
    {
      this.consumerKey := consumerKey;
      this.consumerSecret := consumerSecret;
      this.oauthToken := oauthToken;
      this.oauthTokenSecret := oauthTokenSecret;
      this.respond := respond;
      calls := [];
    }

    /** Issues a signed GET request and returns the decoded body. */
    method Get(endpoint: Endpoint, params: Params) returns (r: Response)
      modifies this
      ensures calls == old(calls) + [Call.Get(endpoint, params)]
      ensures r == respond(|old(calls)|)
    {
      r := respond(|calls|);
      calls := calls + [Call.Get(endpoint, params)];
    }

    /** Issues a signed POST request and returns the decoded body. */
    method Post(endpoint: Endpoint, params: Params) returns (r: Response)
      modifies this
      ensures calls == old(calls) + [Call.Post(endpoint, params)]
      ensures r == respond(|old(calls)|)
    {
      r := respond(|calls|);
      calls := calls + [Call.Post(endpoint, params)];
    }
  }
}

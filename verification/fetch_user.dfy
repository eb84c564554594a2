/**
 FetchUserUseCase.fetchUserSync: cache-aside user fetch.

 The two collaborators are functions: `getUser` is what the users cache
 answers for an id, `endpoint` is what the HTTP endpoint replies (or the
 `NetworkErrorException` it throws). Every interaction with them is
 returned as a trace beside the use-case result.
 */
module FetchUser {
  import opened Options

  datatype User = User(userId: string, username: string)

  /** The endpoint's own status enumeration. */
  datatype EndpointStatus = EndpointSuccess | AuthError | GeneralError

  /** What one endpoint call produces: a result, or the thrown network exception. */
  datatype EndpointReply =
    | EndpointResult(status: EndpointStatus, userId: string, username: string)
    | NetworkErrorException

  /** The use case's status enumeration. */
  datatype Status = Success | Failure | NetworkError

  datatype UseCaseResult = UseCaseResult(status: Status, user: Option<User>)

  /** One call on the users cache. */
  datatype CacheCall = GetUser(id: Option<string>) | CacheUser(user: User)

  /** The result of one `fetchUserSync` call with the collaborator calls it made, in order. */
  datatype Outcome = Outcome(result: UseCaseResult, cacheCalls: seq<CacheCall>, endpointRequests: seq<Option<string>>)

  /** The user a reply carries, for a SUCCESS result. */
  function FetchedUser(reply: EndpointReply): User
    requires reply.EndpointResult?
  {
    User(reply.userId, reply.username)
  }

  /**
   The cache is asked first; a hit is returned as SUCCESS. On a miss the
   endpoint is called with the same id: SUCCESS caches and returns the
   fetched user, any other status is FAILURE, the network exception is
   NETWORK_ERROR; the last two carry no user and write nothing.
   */
  function FetchUserSync(userId: Option<string>, getUser: Option<string> -> Option<User>, endpoint: Option<string> -> EndpointReply): (o: Outcome)
    ensures o.result.user.Some? <==> o.result.status == Success
    ensures |o.cacheCalls| in {1, 2} && o.cacheCalls[0] == GetUser(userId)
    ensures o.endpointRequests == [] <==> getUser(userId).Some?
    ensures o.endpointRequests == [] || o.endpointRequests == [userId]
    ensures |o.cacheCalls| == 2 <==> o.endpointRequests != [] && o.result.status == Success
    ensures |o.cacheCalls| == 2 ==> o.cacheCalls[1] == CacheUser(o.result.user.value)
  {
    match getUser(userId)
    case Some(cached) => Outcome(UseCaseResult(Success, Some(cached)), [GetUser(userId)], [])
    case None =>
      var reply := endpoint(userId);
      var result :=
        match reply
        case NetworkErrorException => UseCaseResult(NetworkError, None)
        case EndpointResult(status, _, _) =>
          if status == EndpointSuccess then UseCaseResult(Success, Some(FetchedUser(reply)))
          else UseCaseResult(Failure, None);
      var writes := if result.status == Success then [CacheUser(result.user.value)] else [];
      Outcome(result, [GetUser(userId)] + writes, [userId])
  }

  /** A cache hit returns exactly the cached user and never contacts the endpoint. */
  lemma CacheHitSkipsEndpoint(userId: Option<string>, getUser: Option<string> -> Option<User>, endpoint: Option<string> -> EndpointReply)
    requires getUser(userId).Some?
    ensures var o := FetchUserSync(userId, getUser, endpoint);
            && o.result == UseCaseResult(Success, getUser(userId))
            && o.endpointRequests == []
            && o.cacheCalls == [GetUser(userId)]
  {
  }

  /** On a hit, what the endpoint would have replied makes no difference at all. */
  lemma CacheHitIgnoresEndpoint(userId: Option<string>, getUser: Option<string> -> Option<User>, e1: Option<string> -> EndpointReply, e2: Option<string> -> EndpointReply)
    requires getUser(userId).Some?
    ensures FetchUserSync(userId, getUser, e1) == FetchUserSync(userId, getUser, e2)
  {
  }

  /** A miss answered with SUCCESS caches `User(result.userId, result.username)` once and returns it. */
  lemma MissWithSuccessCachesUser(userId: Option<string>, getUser: Option<string> -> Option<User>, endpoint: Option<string> -> EndpointReply)
    requires getUser(userId).None?
    requires endpoint(userId).EndpointResult? && endpoint(userId).status == EndpointSuccess
    ensures var o := FetchUserSync(userId, getUser, endpoint);
            var u := User(endpoint(userId).userId, endpoint(userId).username);
            && o.result == UseCaseResult(Success, Some(u))
            && o.endpointRequests == [userId]
            && o.cacheCalls == [GetUser(userId), CacheUser(u)]
  {
  }

  /** A miss answered with AUTH_ERROR or GENERAL_ERROR is FAILURE without a user or a cache write. */
  lemma MissWithErrorStatusFails(userId: Option<string>, getUser: Option<string> -> Option<User>, endpoint: Option<string> -> EndpointReply)
    requires getUser(userId).None?
    requires endpoint(userId).EndpointResult? && endpoint(userId).status != EndpointSuccess
    ensures var o := FetchUserSync(userId, getUser, endpoint);
            && o.result == UseCaseResult(Failure, None)
            && o.endpointRequests == [userId]
            && o.cacheCalls == [GetUser(userId)]
  {
  }

  /** A miss whose endpoint call throws is NETWORK_ERROR without a user or a cache write. */
  lemma MissWithNetworkExceptionReportsNetworkError(userId: Option<string>, getUser: Option<string> -> Option<User>, endpoint: Option<string> -> EndpointReply)
    requires getUser(userId).None?
    requires endpoint(userId).NetworkErrorException?
    ensures var o := FetchUserSync(userId, getUser, endpoint);
            && o.result == UseCaseResult(NetworkError, None)
            && o.endpointRequests == [userId]
            && o.cacheCalls == [GetUser(userId)]
  {
  }

  /**
   The result is SUCCESS exactly when the cache hits or the endpoint says
   SUCCESS, and on every other path the single initial lookup is the only
   cache call.
   */
  lemma SuccessIffHitOrEndpointSuccess(userId: Option<string>, getUser: Option<string> -> Option<User>, endpoint: Option<string> -> EndpointReply)
    ensures var o := FetchUserSync(userId, getUser, endpoint);
            && (o.result.status == Success <==>
                  getUser(userId).Some?
                  || (endpoint(userId).EndpointResult? && endpoint(userId).status == EndpointSuccess))
            && (o.result.status != Success ==> o.cacheCalls == [GetUser(userId)])
  {
  }
}

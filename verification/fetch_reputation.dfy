/**
 FetchReputationUseCase.fetchReputation: call the reputation endpoint once
 and translate its status, passing the reputation through untouched.

 The endpoint's reply is the function's one argument, so the single
 endpoint call per invocation holds by construction and is not traced.
 */
module FetchReputation {

  /** Kotlin's `Int`. The use case only copies it, so no arithmetic is modelled. */
  newtype Int32 = x: int | -0x8000_0000 <= x < 0x8000_0000

  /** The endpoint's status enumeration. */
  datatype EndpointStatus = EndpointSuccess | EndpointGeneralError | EndpointNetworkError

  datatype EndpointResult = EndpointResult(status: EndpointStatus, reputation: Int32)

  /** The use case's two statuses. */
  datatype Status = Success | Failure

  datatype UseCaseResult = UseCaseResult(status: Status, reputation: Int32)

  /** `reply` is what the endpoint's `getReputationSync()` returns. */
  function FetchReputation(reply: EndpointResult): (r: UseCaseResult)
    ensures r.status == Success <==> reply.status == EndpointSuccess
    ensures r.reputation == reply.reputation
  {
    var status := if reply.status == EndpointSuccess then Success else Failure;
    UseCaseResult(status, reply.reputation)
  }

  /** GENERAL_ERROR and NETWORK_ERROR both become FAILURE, keeping the reputation. */
  lemma ErrorStatusesFail(reply: EndpointResult)
    requires reply.status in {EndpointGeneralError, EndpointNetworkError}
    ensures FetchReputation(reply) == UseCaseResult(Failure, reply.reputation)
  {
  }

  /**
   The use case never zeroes the reputation itself: a result carrying 0
   means the endpoint said 0.
   */
  lemma ReputationIsPassedThrough(reply: EndpointResult)
    ensures FetchReputation(reply).reputation == 0 ==> reply.reputation == 0
  {
  }
}

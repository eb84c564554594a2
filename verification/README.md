# Use-case orchestrators of the unit-testing course, in Dafny

This project models the three use cases of the course's test-driven-development
module that carry logic of their own. Each one calls an abstract collaborator
and turns its reply into a result:

- **FetchUserUseCase.fetchUserSync** (module `FetchUser`) does a cache-aside
  user fetch. It asks the users cache first and returns SUCCESS on a hit.
  On a miss it calls the HTTP endpoint. SUCCESS caches and returns the fetched user.
  Any other endpoint status is FAILURE. A thrown `NetworkErrorException` is NETWORK_ERROR.
- **GetContactsUseCase** (modules `Listeners` and `GetContacts`) keeps a listener
  list with subscribe (append) and unsubscribe (remove the first equal entry).
  It maps `ContactSchema` records to `Contact`s. It fans each endpoint callback
  out to every listener in list order. A success carries the mapped list.
  A failure reaches the listeners only for GENERAL_ERROR and NETWORK_ERROR.
- **FetchReputationUseCase.fetchReputation** (module `FetchReputation`) turns
  endpoint SUCCESS into SUCCESS and anything else into FAILURE. The reputation
  passes through unchanged. Its `Status` and `UseCaseResult` types are the ones
  declared in `FetchReputationUseCaseSync.kt` lines 5-12.

Collaborators are function parameters. `getUser` and `endpoint` in `FetchUser`,
and `endpoint` in `GetContacts`, map the request to the collaborator's reply.
`FetchReputation` takes the endpoint's reply directly. The network exception is
a constructor of the reply datatype (`NetworkErrorException`). Every effect is
returned as an explicit trace beside the result: cache calls, endpoint requests
and listener notifications. `UsersCacheFake` is a hand-written map-backed users
cache. It is used to state what two consecutive fetches do. `Options` models
Kotlin's nullable types.

Facts about the code that the model keeps:

- `fetchUserSync` notifies no listener.
- `subscribeListener` accepts duplicates. `unsubscribeListener` removes the first
  equal entry. Neither returns a result.
- Three test names in `FetchUserUseCaseTest.kt` disagree with their bodies. The model follows the code and the bodies:
  - "WHEN AUTH_ERROR, THEN user should be cached" (line 67) asserts that nothing is cached (lines 73-74).
  - "WHEN NETWORK_ERROR, THEN user should be cached" (line 89) asserts that nothing is cached (lines 95-96).
  - "WHEN NETWORK_ERROR, THEN FAILURE to be returned" (line 129) asserts NETWORK_ERROR (line 135).

## Model

| member | source | states |
|---|---|---|
| FetchUser.FetchUserSync | test_driven_development/src/main/java/com/techyourchance/testdrivendevelopment/exercise6/FetchUserUseCase.kt:14-32 | The user is present iff the status is SUCCESS. The first cache call is always `getUser(userId)`, and there is at most one more. The endpoint is asked, exactly once and with the same id, iff the cache misses. A second cache call happens iff the endpoint was asked and the result is SUCCESS, and it caches exactly the returned user. |
| FetchUser.CacheHitSkipsEndpoint | test_driven_development/src/main/java/com/techyourchance/testdrivendevelopment/exercise6/FetchUserUseCase.kt:15-16 | On a hit the result is SUCCESS with exactly the cached user. There is no endpoint request, and the lookup is the only cache call. |
| FetchUser.CacheHitIgnoresEndpoint | test_driven_development/src/main/java/com/techyourchance/testdrivendevelopment/exercise6/FetchUserUseCase.kt:15-17 | On a hit the whole outcome is the same for any two endpoints. |
| FetchUser.MissWithSuccessCachesUser | test_driven_development/src/main/java/com/techyourchance/testdrivendevelopment/exercise6/FetchUserUseCase.kt:19-25 | On a miss with endpoint SUCCESS, the endpoint is asked once with the same id. `User(result.userId, result.username)` is cached once and returned with SUCCESS. |
| FetchUser.MissWithErrorStatusFails | test_driven_development/src/main/java/com/techyourchance/testdrivendevelopment/exercise6/FetchUserUseCase.kt:26 | On a miss, AUTH_ERROR or GENERAL_ERROR gives FAILURE with a null user. The lookup is the only cache call. |
| FetchUser.MissWithNetworkExceptionReportsNetworkError | test_driven_development/src/main/java/com/techyourchance/testdrivendevelopment/exercise6/FetchUserUseCase.kt:28-29 | On a miss, the network exception gives NETWORK_ERROR with a null user and no cache write. The exception does not escape. |
| FetchUser.SuccessIffHitOrEndpointSuccess | test_driven_development/src/main/java/com/techyourchance/testdrivendevelopment/exercise6/FetchUserUseCase.kt:15-29 | The result is SUCCESS iff the cache hits or the endpoint answers SUCCESS. On every other path the single initial lookup is the only cache call. |
| UsersCacheFake.CacheChangesOnlyOnFetchedSuccess | test_driven_development/src/main/java/com/techyourchance/testdrivendevelopment/exercise6/FetchUserUseCase.kt:21-29 | With a map-backed cache, only a SUCCESS fetched from the endpoint changes the cache. Cache hits and all failures leave it as it was. |
| UsersCacheFake.SecondFetchHitsCache | test_driven_development/src/main/java/com/techyourchance/testdrivendevelopment/exercise6/FetchUserUseCase.kt:15-25 | Suppose the endpoint answers for the id it was asked about. Then a fetch right after a successful one is a cache hit with the same result, no endpoint request and no cache change. |
| UsersCacheFake.MismatchedIdMissesAgain | test_driven_development/src/main/java/com/techyourchance/testdrivendevelopment/exercise6/FetchUserUseCase.kt:19-23 | When the endpoint's SUCCESS carries a different id, the user is cached under that other id. The next fetch of the requested id calls the endpoint again. |
| Listeners.Subscribe | test_driven_development/src/main/java/com/techyourchance/testdrivendevelopment/exercise8/GetContactsUseCase.kt:38-40 | Appends the listener at the end. Every earlier entry keeps its place. |
| Listeners.Unsubscribe | test_driven_development/src/main/java/com/techyourchance/testdrivendevelopment/exercise8/GetContactsUseCase.kt:42-44 | An absent listener leaves the list unchanged. Otherwise the list gets exactly one entry shorter. |
| Listeners.UnsubscribeSplit | test_driven_development/src/main/java/com/techyourchance/testdrivendevelopment/exercise8/GetContactsUseCase.kt:42-44 | If `l` does not occur in `front`, unsubscribing `l` from `front + [l] + back` gives exactly `front + back`. |
| Listeners.UnsubscribeMultiset | test_driven_development/src/main/java/com/techyourchance/testdrivendevelopment/exercise8/GetContactsUseCase.kt:42-44 | As a multiset, unsubscribing takes away one copy of the listener if it is registered, and nothing else. |
| Listeners.UnsubscribeRemovesFirst | test_driven_development/src/main/java/com/techyourchance/testdrivendevelopment/exercise8/GetContactsUseCase.kt:42-44 | The removed entry is the first occurrence. The rest keep their relative order. |
| Listeners.UnsubscribeUndoesFreshSubscribe | test_driven_development/src/main/java/com/techyourchance/testdrivendevelopment/exercise8/GetContactsUseCase.kt:38-44 | Unsubscribing a listener right after its first subscription gives back the original list. |
| Listeners.UnsubscribeAfterDuplicateSubscribe | test_driven_development/src/main/java/com/techyourchance/testdrivendevelopment/exercise8/GetContactsUseCase.kt:38-44 | If the listener was already registered, subscribe then unsubscribe drops the earlier entry. The new one stays at the end. |
| Listeners.UnsubscribeDropsOneOccurrence | test_driven_development/src/main/java/com/techyourchance/testdrivendevelopment/exercise8/GetContactsUseCase.kt:42-44 | The listener's registration count drops by one if it was registered at all. |
| Listeners.UnsubscribeMembership | test_driven_development/src/main/java/com/techyourchance/testdrivendevelopment/exercise8/GetContactsUseCase.kt:42-44 | No other listener's membership changes. A listener registered at most once is absent afterwards. |
| GetContacts.ContactsFromContactSchemas | test_driven_development/src/main/java/com/techyourchance/testdrivendevelopment/exercise8/GetContactsUseCase.kt:46-48 | Keeps length and order. Element i has the id, full name and image URL of schema i. |
| GetContacts.NotifyAll | test_driven_development/src/main/java/com/techyourchance/testdrivendevelopment/exercise8/GetContactsUseCase.kt:23-25 | The fan-out gives one notification per list entry, in list order, each with the same event. |
| GetContacts.NotifyAllCountsRegistrations | test_driven_development/src/main/java/com/techyourchance/testdrivendevelopment/exercise8/GetContactsUseCase.kt:23-25 | The fan-out notifies every listener exactly as many times as it is registered. A listener that is not registered gets nothing. |
| GetContacts.OnCallback | test_driven_development/src/main/java/com/techyourchance/testdrivendevelopment/exercise8/GetContactsUseCase.kt:21-35 | An ignored failure (a reason other than GENERAL_ERROR / NETWORK_ERROR) notifies no one. Any other callback notifies each listener once, in list order. A success carries the mapped contacts, and a failure carries the failure event. |
| GetContacts.SubscribeListener | test_driven_development/src/main/java/com/techyourchance/testdrivendevelopment/exercise8/GetContactsUseCase.kt:38-40 | The listener is appended to the use case's list. Earlier entries are unchanged. |
| GetContacts.UnsubscribeListener | test_driven_development/src/main/java/com/techyourchance/testdrivendevelopment/exercise8/GetContactsUseCase.kt:42-44 | An absent listener leaves the use case unchanged. Otherwise one registration of it is removed. |
| GetContacts.FetchContactsAndNotify | test_driven_development/src/main/java/com/techyourchance/testdrivendevelopment/exercise8/GetContactsUseCase.kt:20-36 | The endpoint gets exactly one request, carrying the unchanged filter term. The listener list is not modified. Notifications go either to nobody or to every registered listener, in list order. |
| GetContacts.SuccessNotifiesEveryListener | test_driven_development/src/main/java/com/techyourchance/testdrivendevelopment/exercise8/GetContactsUseCase.kt:22-26 | On a success callback, listener i gets `onContactsFetchSuccessful` exactly once, with the mapped contact list. |
| GetContacts.FailureNotifiesIffKnownReason | test_driven_development/src/main/java/com/techyourchance/testdrivendevelopment/exercise8/GetContactsUseCase.kt:28-34 | On a failure callback, each listener gets `onContactsFetchFailed` once, in order, iff the reason is GENERAL_ERROR or NETWORK_ERROR. Any other reason notifies no one. |
| GetContacts.FetchNotifiesRegistrations | test_driven_development/src/main/java/com/techyourchance/testdrivendevelopment/exercise8/GetContactsUseCase.kt:20-36 | Nobody is notified exactly when no listener is registered or the reply is a failure other than GENERAL_ERROR / NETWORK_ERROR. Otherwise each listener is notified as many times as it is registered. Unregistered listeners never are. |
| GetContacts.UnsubscribedListenerNotNotified | test_driven_development/src/test/java/com/techyourchance/testdrivendevelopment/exercise8/GetContactsUseCaseTest.kt:73-89 | After subscribe(a), subscribe(b), unsubscribe(b), a fetch never notifies `b`. It notifies `a` exactly once, unless the reply is a failure other than GENERAL_ERROR / NETWORK_ERROR, in which case not at all. |
| FetchReputation.FetchReputation | test_driven_development/src/main/java/com/techyourchance/testdrivendevelopment/exercise7/FetchReputationUseCase.kt:12-18 | The result is SUCCESS iff the endpoint status is SUCCESS, and FAILURE otherwise. The reputation equals the endpoint's in both branches. The single endpoint call holds by construction: the reply is the function's one argument. |
| FetchReputation.ErrorStatusesFail | test_driven_development/src/main/java/com/techyourchance/testdrivendevelopment/exercise7/FetchReputationUseCase.kt:16 | GENERAL_ERROR and NETWORK_ERROR both give FAILURE, keeping the endpoint's reputation. |
| FetchReputation.ReputationIsPassedThrough | test_driven_development/src/test/java/com/techyourchance/testdrivendevelopment/exercise7/FetchReputationUseCaseTest.kt:69-86 | A reported 0 means the endpoint supplied 0: the use case does not zero the value. |

## Left out

- Real HTTP endpoints and the application's `UsersCache` implementation are not modelled.
  They are abstract replies (function parameters). The map-backed `UsersCacheFake` is only a stand-in for reasoning about repeated fetches.
- FetchUser: in the model the users cache never throws. In the source a `NetworkErrorException` from `cacheUser` is inside the `try` (FetchUserUseCase.kt lines 18-29). It would be caught and give NETWORK_ERROR after a cache write was attempted, against the trace `[GetUser, CacheUser(u)]`. The same exception from `getUser` at line 15 is outside the `try` and propagates.
- Exceptions other than `NetworkErrorException` are not modelled, whether the endpoint or the cache throws them. The source does not catch them, so they propagate.
- GetContacts: a listener that throws during the fan-out is not modelled. In the source the exception aborts `forEach` (GetContactsUseCase.kt lines 23 and 30), so later listeners are not notified.
- GetContacts: the endpoint's `FailReason` enumeration is not part of this model. GENERAL_ERROR and NETWORK_ERROR are modelled, and `OtherReason` stands for any further value.
- GetContacts: an endpoint that invokes its callback never, twice or asynchronously is not modelled. Nor is a listener that subscribes or unsubscribes from inside a notification; on the source's list that would be a concurrent modification. Each fetch is one synchronous callback.
- GetContacts: listener identity is modelled as equality of listener values. Kotlin's `remove` uses `equals`, which is identity for the listeners the tests use.
- `ContactSchema.age` (a Double) is never read by the mapping and is not modelled.
- FetchReputation: Kotlin's `Int` is a 32-bit newtype. The use case only copies it, so no wrap-around arises.
- Other exercises of the course are not part of this model: update-username, fetch-user-profile, question details with its clock-based cache window, interval adjacency, string duplication, negative-number validation. Their implementations are not among the modelled files.

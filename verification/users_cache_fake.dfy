/**
 A hand-written users cache for reasoning about consecutive fetches: a map
 from user id to the last user cached under that id, which answers
 `getUser` from the map and applies `cacheUser` to it. The cache the use
 case is constructed with in the application is not part of this model;
 this stand-in only shows what `fetchUserSync` does to a cache that
 behaves like a map.
 */
module UsersCacheFake {
  import opened Options
  import opened FetchUser

  type Store = map<string, User>

  /** `getUser(id)`: a null id finds nothing. */
  function Lookup(store: Store, id: Option<string>): (r: Option<User>)
    ensures r.Some? <==> id.Some? && id.value in store
    ensures r.Some? ==> r.value == store[id.value]
  {
    match id
    case None => None
    case Some(k) => if k in store then Some(store[k]) else None
  }

  /** The store after the given cache calls, in order. */
  function Apply(store: Store, calls: seq<CacheCall>): (s: Store)
    ensures store.Keys <= s.Keys
    ensures (forall i :: 0 <= i < |calls| ==> calls[i].GetUser?) ==> s == store
    ensures forall k :: k in s ==>
              (k in store && s[k] == store[k]) || exists i :: 0 <= i < |calls| && calls[i] == CacheUser(s[k])
    decreases |calls|
  {
    if |calls| == 0 then store
    else
      var next := match calls[0]
        case GetUser(_) => store
        case CacheUser(u) => store[u.userId := u];
      var s := Apply(next, calls[1..]);
      assert forall i :: 0 <= i < |calls| - 1 ==> calls[1..][i] == calls[i + 1];
      assert forall k :: k in next && k !in store ==> calls[0] == CacheUser(next[k]);
      assert forall k :: k in next && k in store ==> next[k] == store[k] || calls[0] == CacheUser(next[k]);
      s
  }

  /** One `fetchUserSync` against the map-backed cache, and the cache afterwards. */
  function FetchWithStore(store: Store, userId: Option<string>, endpoint: Option<string> -> EndpointReply): (Outcome, Store)
  {
    var o := FetchUserSync(userId, id => Lookup(store, id), endpoint);
    (o, Apply(store, o.cacheCalls))
  }

  /** Only a SUCCESS fetched from the endpoint changes the cache. */
  lemma CacheChangesOnlyOnFetchedSuccess(store: Store, userId: Option<string>, endpoint: Option<string> -> EndpointReply)
    ensures var (o, s) := FetchWithStore(store, userId, endpoint);
            (o.result.status != Success || o.endpointRequests == []) ==> s == store
  {
    var (o, s) := FetchWithStore(store, userId, endpoint);
    if o.result.status != Success || o.endpointRequests == [] {
      assert o.cacheCalls == [GetUser(userId)];
    }
  }

  /**
   When the endpoint answers for the id it was asked about, a second fetch
   right after a successful one is a cache hit: same result, no endpoint
   request, no cache write.
   */
  lemma {:induction false} SecondFetchHitsCache(store: Store, k: string, endpoint: Option<string> -> EndpointReply)
    requires endpoint(Some(k)).EndpointResult? ==> endpoint(Some(k)).userId == k
    requires FetchWithStore(store, Some(k), endpoint).0.result.status == Success
    ensures var (o1, s1) := FetchWithStore(store, Some(k), endpoint);
            var (o2, s2) := FetchWithStore(s1, Some(k), endpoint);
            && o2.endpointRequests == []
            && o2.result == o1.result
            && s2 == s1
  {
    var (o1, s1) := FetchWithStore(store, Some(k), endpoint);
    if k !in store {
      var u := FetchedUser(endpoint(Some(k)));
      assert o1.cacheCalls == [GetUser(Some(k)), CacheUser(u)];
      assert [GetUser(Some(k)), CacheUser(u)][1..] == [CacheUser(u)];
      assert [CacheUser(u)][1..] == [];
      assert s1 == Apply(store, [CacheUser(u)]);
      assert s1 == Apply(store[k := u], []);
    }
    var (o2, s2) := FetchWithStore(s1, Some(k), endpoint);
    assert o2.cacheCalls == [GetUser(Some(k))];
  }

  /**
   When the endpoint answers SUCCESS for a different id, the fetched user is
   cached under that other id and a second fetch misses and calls the
   endpoint again.
   */
  lemma {:induction false} MismatchedIdMissesAgain(store: Store, k: string, endpoint: Option<string> -> EndpointReply)
    requires k !in store
    requires endpoint(Some(k)).EndpointResult? && endpoint(Some(k)).status == EndpointSuccess
    requires endpoint(Some(k)).userId != k
    ensures var (o1, s1) := FetchWithStore(store, Some(k), endpoint);
            var (o2, s2) := FetchWithStore(s1, Some(k), endpoint);
            o2.endpointRequests == [Some(k)]
  {
    var (o1, s1) := FetchWithStore(store, Some(k), endpoint);
    var u := FetchedUser(endpoint(Some(k)));
    assert o1.cacheCalls == [GetUser(Some(k)), CacheUser(u)];
    assert [GetUser(Some(k)), CacheUser(u)][1..] == [CacheUser(u)];
    assert [CacheUser(u)][1..] == [];
    assert s1 == Apply(store, [CacheUser(u)]);
    assert s1 == Apply(store[u.userId := u], []);
    assert k !in s1;
  }
}

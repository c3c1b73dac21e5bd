/** The client of `src/services/api.js`: how a failed request becomes the
    message of the Error every call throws, how missing response data is
    normalised, the request parameters, and the address lists cached in
    `localStorage` for 24 hours. The HTTP exchange itself is an oracle: each
    operation takes the reply its request gets. */
module Api {
  import opened Common
  import opened Records

  /** How an axios request failed. */
  datatype RequestError =
    | ResponseError(serverError: Option<string>)  // the server answered; `response.data?.error`
    | NoResponse                                   // sent, but no answer came back
    | SetupError(message: string)                  // failed before it was sent

  /** The reply a request gets: `response.data?.data`, or the error it raised. */
  datatype Reply<T> = Answered(data: Option<T>) | Raised(error: RequestError)

  const RequestFailed := "API request failed"
  const NetworkError := "Network error - please check your connection"

  /** `handleError`: the message of the Error it throws. A server answer yields
      the server's own error text or the generic failure; a request without an
      answer yields the network message; anything else keeps its message. */
  function HandleError(e: RequestError): (msg: string)
    ensures e.ResponseError? ==>
              (msg == RequestFailed <==> !Truthy(e.serverError) || e.serverError.value == RequestFailed)
    ensures e.ResponseError? && Truthy(e.serverError) ==> msg == e.serverError.value
    ensures e.NoResponse? ==> msg == NetworkError
    ensures e.SetupError? ==> msg == e.message
    ensures msg == "" ==> e.SetupError?
  {
    match e
    case ResponseError(serverError) => TextOr(serverError, RequestFailed)
    case NoResponse => NetworkError
    case SetupError(message) => message
  }

  /** `getProducts`, `getOrders` and the fetch in `getAddresses`: a missing
      list is read as the empty list, and a failure throws `handleError`'s
      message. */
  function FetchList<T>(reply: Reply<seq<T>>): (r: Result<seq<T>>)
    ensures r.Ok? <==> reply.Answered?
    ensures reply.Answered? && reply.data.None? ==> r == Ok([])
    ensures reply.Answered? && reply.data.Some? ==> r == Ok(reply.data.value)
    ensures reply.Raised? ==> r == Err(HandleError(reply.error))
  {
    match reply
    case Answered(data) => Ok(data.GetOr([]))
    case Raised(error) => Err(HandleError(error))
  }

  /** `getProduct`: a missing product is read as `null` (None). */
  function FetchOne<T>(reply: Reply<T>): (r: Result<Option<T>>)
    ensures r.Ok? <==> reply.Answered?
    ensures reply.Answered? ==> r.value == reply.data
    ensures reply.Raised? ==> r == Err(HandleError(reply.error))
  {
    match reply
    case Answered(data) => Ok(data)
    case Raised(error) => Err(HandleError(error))
  }

  /** The query parameters of `getOrders(filters)`: `action=getOrders`, then the
      filters spread over it, so a filter named `action` replaces it. */
  function OrdersParams(filters: map<string, string>): (r: map<string, string>)
    ensures r.Keys == filters.Keys + {"action"}
    ensures forall k :: k in filters ==> r[k] == filters[k]
    ensures "action" !in filters ==> r["action"] == "getOrders"
  {
    map["action" := "getOrders"] + filters
  }

  /** The query parameters of the address request: `action` and `level`, then
      `parentId` only when it is not empty. */
  function AddressParams(level: string, parentId: string): (r: seq<(string, string)>)
    ensures |r| == (if parentId == "" then 2 else 3)
    ensures r[..2] == [("action", "getAddress"), ("level", level)]
    ensures |r| == 3 ==> r[2] == ("parentId", parentId)
    ensures forall k :: 0 <= k < |r| ==> r[k].1 != "" || r[k].0 != "parentId"
  {
    var base := [("action", "getAddress"), ("level", level)];
    if parentId != "" then base + [("parentId", parentId)] else base
  }

  // ---------------------------------------------------------------------------
  // The address cache
  // ---------------------------------------------------------------------------

  /** How long a cached address list is served, in milliseconds (24 hours). */
  const FreshnessWindow := 86400000

  /** A cached list with the `Date.now()` at which it was stored. */
  datatype CacheEntry = CacheEntry(data: seq<Address>, timestamp: int)

  type Store = map<string, CacheEntry>

  /** The `localStorage` key of an address list. */
  function CacheKey(level: string, parentId: string): (key: string)
    ensures |key| == 9 + |level| + |parentId|
    ensures key[..8] == "address_" && key[8 + |level|] == '_'
    ensures key[8..8 + |level|] == level && key[9 + |level|..] == parentId
  {
    "address_" + level + "_" + parentId
  }

  /** Different lists never share a key while the level names have no `_`
      (the form uses `province`, `city` and `barangay`). */
  lemma CacheKeyInjective(l1: string, p1: string, l2: string, p2: string)
    requires '_' !in l1 && '_' !in l2
    requires CacheKey(l1, p1) == CacheKey(l2, p2)
    ensures l1 == l2 && p1 == p2
  {
    var k := CacheKey(l1, p1);
    var s1 := l1 + "_" + p1;
    var s2 := l2 + "_" + p2;
    assert s1 == k[8..] && s2 == k[8..];
    if |l1| != |l2| {
      assert false;
    }
    assert l1 == s1[..|l1|] && l2 == s2[..|l2|];
    assert p1 == s1[|l1| + 1..] && p2 == s2[|l2| + 1..];
  }

  /** The list served from the cache at time `now`: the stored one while it is
      younger than the window, otherwise nothing. */
  function Cached(store: Store, key: string, now: int): (r: Option<seq<Address>>)
    ensures r.Some? <==> key in store && now - store[key].timestamp < FreshnessWindow
    ensures r.Some? ==> r.value == store[key].data
  {
    if key in store && now - store[key].timestamp < FreshnessWindow then Some(store[key].data)
    else None
  }

  /** The cache after a fetch of `data` at time `at`: only a non-empty list is
      written, and no other key changes. */
  function Remember(store: Store, key: string, data: seq<Address>, at: int): (r: Store)
    ensures |data| == 0 ==> r == store
    ensures |data| > 0 ==> key in r && r[key] == CacheEntry(data, at)
    ensures r.Keys == store.Keys || (|data| > 0 && r.Keys == store.Keys + {key})
    ensures forall k :: k in store && k != key ==> r[k] == store[k]
  {
    if |data| > 0 then store[key := CacheEntry(data, at)] else store
  }

  /** What `getAddresses` returns: the cached list while it is fresh, otherwise
      the fetched one. */
  function Served(store: Store, level: string, parentId: string, now: int, reply: Reply<seq<Address>>)
    : (r: Result<seq<Address>>)
    ensures Cached(store, CacheKey(level, parentId), now).Some? ==>
              r == Ok(Cached(store, CacheKey(level, parentId), now).value)
    ensures Cached(store, CacheKey(level, parentId), now).None? ==> r == FetchList(reply)
    ensures r.Err? ==> reply.Raised?
  {
    match Cached(store, CacheKey(level, parentId), now)
    case Some(data) => Ok(data)
    case None => FetchList(reply)
  }

  /** Every cached list is non-empty. */
  ghost predicate NoEmptyEntries(store: Store) {
    forall k :: k in store ==> |store[k].data| > 0
  }

  /** A list just fetched and remembered is served back while it is fresh,
      and is fetched again once the window has passed. */
  lemma RememberThenServe(store: Store, key: string, data: seq<Address>, at: int, now: int)
    requires |data| > 0
    ensures now - at < FreshnessWindow ==> Cached(Remember(store, key, data, at), key, now) == Some(data)
    ensures now - at >= FreshnessWindow ==> Cached(Remember(store, key, data, at), key, now) == None
  {
  }

  /** Remembering a list leaves what every other key serves unchanged. */
  lemma RememberIsolated(store: Store, key: string, other: string, data: seq<Address>, at: int, now: int)
    requires other != key
    ensures Cached(Remember(store, key, data, at), other, now) == Cached(store, other, now)
  {
  }

  /** Remembering keeps every cached list non-empty, so the cache never serves
      an empty list. */
  lemma RememberKeepsNonEmpty(store: Store, key: string, data: seq<Address>, at: int, now: int)
    requires NoEmptyEntries(store)
    ensures NoEmptyEntries(Remember(store, key, data, at))
    ensures Cached(store, key, now).Some? ==> |Cached(store, key, now).value| > 0
  {
  }

  /** The `localStorage` entries written by `getAddresses`. */
  class AddressCache {
    var store: Store

    ghost predicate Valid()
      reads this
    {
      NoEmptyEntries(store)
    }

    constructor()
      ensures Valid() && store == map[]
    {
      store := map[];
    }

    /** `getAddresses(level, parentId)`. `now` is `Date.now()` when the cache is
        consulted, `fetchedAt` the `Date.now()` after the reply arrives, and
        `reply` what the request returns; `request` is the request sent, if any. */
    method GetAddresses(level: string, parentId: string, now: int, reply: Reply<seq<Address>>, fetchedAt: int)
      returns (r: Result<seq<Address>>, request: Option<seq<(string, string)>>)
      requires Valid()
      modifies this
      ensures Valid()
      ensures r == Served(old(store), level, parentId, now, reply)
      ensures var key := CacheKey(level, parentId);
              match Cached(old(store), key, now)
              case Some(data) => r == Ok(data) && request == None && store == old(store)
              case None =>
                r == FetchList(reply) && request == Some(AddressParams(level, parentId))
                && store == (if r.Ok? then Remember(old(store), key, r.value, fetchedAt) else old(store))
    {
      var key := CacheKey(level, parentId);
      if key in store {
        var entry := store[key];
        if now - entry.timestamp < FreshnessWindow {
          return Ok(entry.data), None;
        }
      }
      request := Some(AddressParams(level, parentId));
      r := FetchList(reply);
      if r.Ok? {
        if |r.value| > 0 {
          store := store[key := CacheEntry(r.value, fetchedAt)];
        }
      }
    }
  }
}

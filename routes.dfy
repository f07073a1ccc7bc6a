/**
 * The two read handlers over the application cache. Both only read: they take the map
 * as it stands under the read lock and return a value.
 *
 * A `HashMap` iterates in an order the program does not control; that order is the
 * parameter `order`, any enumeration of the cache's keys.
 */
module Routes {
  import opened Wrappers
  import opened Applications
  import opened SwaggerHeader

  /** How many entries a request from the Swagger UI gets at most. */
  const SwaggerUiLimit: nat := 50

  datatype StatusCode = NotFound

  /** `get_application_by_id`: the cached application, or NOT_FOUND for an unknown id. */
  function GetApplicationById(cache: map<string, AzureApplication>, id: string): (r: Result<AzureApplication, StatusCode>)
    ensures r.Ok? <==> id in cache
    ensures r.Ok? ==> r.value == cache[id]
    ensures r.Err? ==> r.error == NotFound
  {
    if id in cache then Ok(cache[id]) else Err(NotFound)
  }

  /** `order` lists every key of the map exactly once. */
  predicate Enumerates(order: seq<string>, keys: set<string>)
  {
    && (forall i, j :: 0 <= i < j < |order| ==> order[i] != order[j])
    && (forall i :: 0 <= i < |order| ==> order[i] in keys)
    && (forall k :: k in keys ==> k in order)
  }

  /** The first `n` keys of an enumeration. */
  function Prefix(order: seq<string>, n: nat): set<string>
    requires n <= |order|
  {
    set i | 0 <= i < n :: order[i]
  }

  /** The first `n` keys of a repetition-free enumeration are `n` distinct keys. */
  lemma {:induction false} PrefixSize(order: seq<string>, n: nat)
    requires n <= |order|
    requires forall i, j :: 0 <= i < j < |order| ==> order[i] != order[j]
    ensures |Prefix(order, n)| == n
  {
    if n > 0 {
      PrefixSize(order, n - 1);
      assert Prefix(order, n) == Prefix(order, n - 1) + {order[n - 1]};
      assert order[n - 1] !in Prefix(order, n - 1);
    }
  }

  function Min(a: nat, b: nat): nat
  {
    if a < b then a else b
  }

  /**
   * `get_all_applications`: the whole cache, or, for a request marked as coming from the
   * Swagger UI, the first 50 entries the map yields, each with its cached value.
   */
  function GetAllApplications(cache: map<string, AzureApplication>, headers: HeaderMap, order: seq<string>)
    : (r: map<string, AzureApplication>)
    requires Enumerates(order, cache.Keys)
    ensures !FromSwaggerUiPresent(headers) ==> r == cache
    ensures FromSwaggerUiPresent(headers) ==> |r| == Min(SwaggerUiLimit, |cache|)
    ensures forall id :: id in r ==> id in cache && r[id] == cache[id]
  {
    if FromSwaggerUiPresent(headers) then
      EnumerationCoversKeys(order, cache.Keys);
      var n := Min(SwaggerUiLimit, |order|);
      PrefixSize(order, n);
      var r := map id | id in Prefix(order, n) :: cache[id];
      assert r.Keys == Prefix(order, n);
      r
    else
      cache
  }

  /** An enumeration of a key set is exactly as long as the set, and its keys are the set. */
  lemma EnumerationCoversKeys(order: seq<string>, keys: set<string>)
    requires Enumerates(order, keys)
    ensures Prefix(order, |order|) == keys
    ensures |order| == |keys|
  {
    forall k | k in keys ensures k in Prefix(order, |order|) {
      var i :| 0 <= i < |order| && order[i] == k;
    }
    PrefixSize(order, |order|);
  }

  /** A cache of at most 50 entries reaches the Swagger UI whole. */
  lemma SmallCacheIsNotTruncated(cache: map<string, AzureApplication>, headers: HeaderMap, order: seq<string>)
    requires Enumerates(order, cache.Keys)
    requires |cache| <= SwaggerUiLimit
    ensures GetAllApplications(cache, headers, order) == cache
  {
    EnumerationCoversKeys(order, cache.Keys);
    assert Min(SwaggerUiLimit, |order|) == |order|;
  }

  /**
   * End to end: a request whose referer is the Swagger UI page is marked on the way in,
   * and the listing it gets holds at most 50 applications, all from the cache.
   */
  lemma SwaggerUiListingIsShort(cache: map<string, AzureApplication>, headers: HeaderMap, swaggerUiUrl: string, order: seq<string>)
    requires Enumerates(order, cache.Keys)
    requires MarksSwaggerUi(headers, swaggerUiUrl)
    ensures var r := GetAllApplications(cache, WithSwaggerUiMarker(headers, swaggerUiUrl), order);
      |r| <= SwaggerUiLimit && r.Keys <= cache.Keys
  {
  }
}

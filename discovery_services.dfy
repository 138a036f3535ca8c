/**
 * Discovery finder lookups and the connector discovery service's URL cache with its
 * stale-value fallback. HTTP responses and the OAuth connection state are inputs.
 */
module Discovery {
  import opened Wrappers
  import opened Json

  datatype DiscoveryError =
    | NotConnected       // ConnectionError: the OAuth manager is not connected
    | RequestFailed      // no response, or a status other than 200
    | NoEndpoints        // the endpoints key is absent or its list is empty
    | MalformedResponse  // KeyError, TypeError or AttributeError while reading the response
    | KeyNotFound        // the requested discovery key is not in the finder's answer
    | CacheMiss          // KeyError reading a cache entry that was never stored

  /** One finder endpoint as the `(type, endpointAddress)` pair the projection builds. */
  function EndpointPair(x: Json, returnTypeKey: string, endpointAddressKey: string): (r: Result<(string, Json), DiscoveryError>)
    ensures r.Ok? <==> x.JObj? && Get(x.fields, returnTypeKey).Some? && Get(x.fields, returnTypeKey).value.JStr?
                       && Get(x.fields, endpointAddressKey).Some?
    ensures r.Ok? ==> r.value == (Get(x.fields, returnTypeKey).value.s, Get(x.fields, endpointAddressKey).value)
  {
    match PyIndex(x, returnTypeKey)
    case Err(_) => Err(MalformedResponse)
    case Ok(t) =>
      match PyIndex(x, endpointAddressKey)
      case Err(_) => Err(MalformedResponse)
      case Ok(a) => if t.JStr? then Ok((t.s, a)) else Err(MalformedResponse)
  }

  /** `dict(map(lambda x: (x[type], x[address]), endpoints))`: pairs inserted in order. */
  function Project(items: seq<Json>, returnTypeKey: string, endpointAddressKey: string): Result<map<string, Json>, DiscoveryError>
    decreases |items|
  {
    if |items| == 0 then Ok(map[])
    else
      match Project(items[..|items| - 1], returnTypeKey, endpointAddressKey)
      case Err(e) => Err(e)
      case Ok(m) =>
        match EndpointPair(items[|items| - 1], returnTypeKey, endpointAddressKey)
        case Err(e) => Err(e)
        case Ok(p) => Ok(m[p.0 := p.1])
  }

  /** The projection fails exactly when some endpoint cannot be read as a pair. */
  lemma {:induction false} ProjectOk(items: seq<Json>, rt: string, ea: string)
    ensures Project(items, rt, ea).Ok? <==> forall i :: 0 <= i < |items| ==> EndpointPair(items[i], rt, ea).Ok?
    decreases |items|
  {
    if |items| > 0 {
      var init := items[..|items| - 1];
      ProjectOk(init, rt, ea);
      assert forall i :: 0 <= i < |init| ==> init[i] == items[i];
    }
  }

  /**
   * Every endpoint type is a key of the projection, and each key maps to the address of
   * the LAST endpoint with that type.
   */
  lemma {:induction false} ProjectLastWins(items: seq<Json>, rt: string, ea: string, i: nat)
    requires Project(items, rt, ea).Ok?
    requires i < |items|
    requires forall j :: i < j < |items| ==>
      EndpointPair(items[j], rt, ea).Ok? && EndpointPair(items[i], rt, ea).Ok?
      && EndpointPair(items[j], rt, ea).value.0 != EndpointPair(items[i], rt, ea).value.0
    ensures EndpointPair(items[i], rt, ea).Ok?
    ensures EndpointPair(items[i], rt, ea).value.0 in Project(items, rt, ea).value
    ensures Project(items, rt, ea).value[EndpointPair(items[i], rt, ea).value.0] == EndpointPair(items[i], rt, ea).value.1
    decreases |items|
  {
    ProjectOk(items, rt, ea);
    var init := items[..|items| - 1];
    if i < |items| - 1 {
      ProjectOk(init, rt, ea);
      assert forall j :: 0 <= j < |init| ==> init[j] == items[j];
      ProjectLastWins(init, rt, ea, i);
    }
  }

  /** No key appears in the projection without an endpoint of that type. */
  lemma {:induction false} ProjectKeys(items: seq<Json>, rt: string, ea: string, k: string)
    requires Project(items, rt, ea).Ok?
    requires k in Project(items, rt, ea).value
    ensures exists i :: 0 <= i < |items| && EndpointPair(items[i], rt, ea).Ok? && EndpointPair(items[i], rt, ea).value.0 == k
    decreases |items|
  {
    var init := items[..|items| - 1];
    var last := EndpointPair(items[|items| - 1], rt, ea);
    if last.value.0 != k {
      ProjectKeys(init, rt, ea, k);
      var i :| 0 <= i < |init| && EndpointPair(init[i], rt, ea).Ok? && EndpointPair(init[i], rt, ea).value.0 == k;
      assert init[i] == items[i];
    }
  }

  /** Python's `len(j)` on a JSON value; numbers, booleans and None raise TypeError. */
  function PyLen(j: Json): Result<nat, PyError> {
    match j
    case JArr(xs) => Ok(|xs|)
    case JObj(fs) => Ok(|fs|)
    case JStr(s) => Ok(|s|)
    case _ => Err(TypeError)
  }

  /** Python's `for x in j`: list items, dict keys or string characters. */
  function PyIter(j: Json): Result<seq<Json>, PyError> {
    match j
    case JArr(xs) => Ok(xs)
    case JObj(fs) => Ok(seq(|fs|, i requires 0 <= i < |fs| => JStr(fs[i].0)))
    case JStr(s) => Ok(seq(|s|, i requires 0 <= i < |s| => JStr([s[i]])))
    case _ => Err(TypeError)
  }

  /** `DiscoveryFinderService.find_discovery_urls`: the finder's endpoints as a type -> address map. */
  function FindDiscoveryUrls(connected: bool, response: Option<Response>, endpointsKey: string,
                             endpointAddressKey: string, returnTypeKey: string)
    : (r: Result<map<string, Json>, DiscoveryError>)
    ensures !connected ==> r == Err(NotConnected)
    ensures connected && (response.None? || response.value.status != 200) ==> r == Err(RequestFailed)
    ensures connected && response.Some? && response.value.status == 200 && response.value.body.JObj?
            && (Get(response.value.body.fields, endpointsKey).None? || Get(response.value.body.fields, endpointsKey) == Some(JArr([])))
            ==> r == Err(NoEndpoints)
    ensures r.Ok? ==> connected && response.Some? && response.value.status == 200
    ensures r.Ok? && response.value.body.JObj? ==>
      && Get(response.value.body.fields, endpointsKey).Some?
      && Get(response.value.body.fields, endpointsKey).value.JArr?
      && |Get(response.value.body.fields, endpointsKey).value.items| > 0
      && r == Project(Get(response.value.body.fields, endpointsKey).value.items, returnTypeKey, endpointAddressKey)
    ensures connected && response.Some? && response.value.status == 200 && response.value.body.JObj?
            && Get(response.value.body.fields, endpointsKey).Some?
            && Get(response.value.body.fields, endpointsKey).value.JArr?
            && |Get(response.value.body.fields, endpointsKey).value.items| > 0 ==>
      r == Project(Get(response.value.body.fields, endpointsKey).value.items, returnTypeKey, endpointAddressKey)
    ensures (response.Some? && response.value.body.JObj? && Get(response.value.body.fields, endpointsKey).Some?
             && !Get(response.value.body.fields, endpointsKey).value.JArr?) ==> r.Err?
  {
    if !connected then Err(NotConnected)
    else if response.None? || response.value.status != 200 then Err(RequestFailed)
    else
      var data := response.value.body;
      match PyIn(endpointsKey, data)
      case Err(_) => Err(MalformedResponse)
      case Ok(present) =>
        if !present then Err(NoEndpoints)
        else
          match PyIndex(data, endpointsKey)
          case Err(_) => Err(MalformedResponse)
          case Ok(endpoints) =>
            match PyLen(endpoints)
            case Err(_) => Err(MalformedResponse)
            case Ok(n) =>
              if n == 0 then Err(NoEndpoints)
              else
                match PyIter(endpoints)
                case Err(_) => Err(MalformedResponse)
                case Ok(items) =>
                  if endpoints.JArr? then Project(items, returnTypeKey, endpointAddressKey)
                  else Err(MalformedResponse)  // dict keys and characters have no `[key]`
  }

  /** The finder call as seen by the cache: whether OAuth is connected, and the finder's response. */
  datatype FinderCall = FinderCall(connected: bool, response: Option<Response>)

  /** `get_connector_discovery_url`: the URL the finder reports for `key`. */
  function GetConnectorDiscoveryUrl(finder: FinderCall, key: string, endpointsKey: string,
                                    endpointAddressKey: string, returnTypeKey: string)
    : (r: Result<Json, DiscoveryError>)
    ensures var found := FindDiscoveryUrls(finder.connected, finder.response, endpointsKey, endpointAddressKey, returnTypeKey);
      && (found.Err? ==> r == Err(found.error))
      && (found.Ok? && key !in found.value ==> r == Err(KeyNotFound))
      && (found.Ok? && key in found.value ==> r == Ok(found.value[key]))
  {
    var endpoints :- FindDiscoveryUrls(finder.connected, finder.response, endpointsKey, endpointAddressKey, returnTypeKey);
    if key !in endpoints then Err(KeyNotFound) else Ok(endpoints[key])
  }

  /** A cached URL and the time it was fetched. */
  datatype CacheEntry = CacheEntry(url: Json, timestamp: int)

  /** One cache resolution: the URL or error, the cache afterwards, and whether the finder was called. */
  datatype Resolved = Resolved(url: Result<Json, DiscoveryError>, cache: map<string, CacheEntry>, called: bool)

  /** `find_connector_by_bpn`'s scan: the endpoints of the first item whose bpn matches. */
  function FirstByBpn(items: seq<Json>, bpn: string, bpnKey: string, endpointKey: string)
    : Result<Option<Json>, DiscoveryError>
    decreases |items|
  {
    if |items| == 0 then Ok(None)
    else if !items[0].JObj? then Err(MalformedResponse)  // AttributeError: no `.get`
    else if Get(items[0].fields, bpnKey) == Some(JStr(bpn)) then
      Ok(Some(Get(items[0].fields, endpointKey).GetOr(JArr([]))))
    else FirstByBpn(items[1..], bpn, bpnKey, endpointKey)
  }

  /** Item `x` is a dict whose bpn entry equals `bpn`. */
  predicate Matches(x: Json, bpn: string, bpnKey: string) {
    x.JObj? && Get(x.fields, bpnKey) == Some(JStr(bpn))
  }

  /** Item `x` is a dict the scan reads and moves past. */
  predicate Passes(x: Json, bpn: string, bpnKey: string) {
    x.JObj? && Get(x.fields, bpnKey) != Some(JStr(bpn))
  }

  /** When the scan finds nothing, every item was a dict with another bpn. */
  lemma {:induction false} FirstByBpnNone(items: seq<Json>, bpn: string, bpnKey: string, endpointKey: string)
    requires FirstByBpn(items, bpn, bpnKey, endpointKey) == Ok(None)
    ensures forall j :: 0 <= j < |items| ==> Passes(items[j], bpn, bpnKey)
    decreases |items|
  {
    if |items| > 0 {
      FirstByBpnNone(items[1..], bpn, bpnKey, endpointKey);
      assert forall j :: 1 <= j < |items| ==> items[j] == items[1..][j - 1];
    }
  }

  /** When the scan finds something, it is the endpoint list of the first matching item. */
  lemma {:induction false} FirstByBpnFound(items: seq<Json>, bpn: string, bpnKey: string, endpointKey: string, v: Json)
    requires FirstByBpn(items, bpn, bpnKey, endpointKey) == Ok(Some(v))
    ensures exists i ::
      && 0 <= i < |items| && Matches(items[i], bpn, bpnKey)
      && v == Get(items[i].fields, endpointKey).GetOr(JArr([]))
      && (forall j :: 0 <= j < i ==> Passes(items[j], bpn, bpnKey))
    decreases |items|
  {
    if !Matches(items[0], bpn, bpnKey) {
      var rest := items[1..];
      FirstByBpnFound(rest, bpn, bpnKey, endpointKey, v);
      var i :| 0 <= i < |rest| && Matches(rest[i], bpn, bpnKey)
        && v == Get(rest[i].fields, endpointKey).GetOr(JArr([]))
        && (forall j :: 0 <= j < i ==> Passes(rest[j], bpn, bpnKey));
      assert items[i + 1] == rest[i];
      assert forall j :: 1 <= j < i + 1 ==> items[j] == rest[j - 1];
      assert Passes(items[0], bpn, bpnKey);
    }
  }

  /** The loop of `find_connector_by_bpn` over the connector discovery response. */
  method ScanForBpn(body: Json, bpn: string, bpnKey: string, endpointKey: string)
    returns (r: Result<Option<Json>, DiscoveryError>)
    ensures PyIter(body).Err? ==> r == Err(MalformedResponse)
    ensures PyIter(body).Ok? ==> r == FirstByBpn(PyIter(body).value, bpn, bpnKey, endpointKey)
  {
    var iterated := PyIter(body);
    if iterated.Err? {
      return Err(MalformedResponse);
    }
    var items := iterated.value;
    var i := 0;
    while i < |items|
      invariant 0 <= i <= |items|
      invariant FirstByBpn(items, bpn, bpnKey, endpointKey) == FirstByBpn(items[i..], bpn, bpnKey, endpointKey)
    {
      var item := items[i];
      if !item.JObj? {
        return Err(MalformedResponse);
      }
      if Get(item.fields, bpnKey) == Some(JStr(bpn)) {
        return Ok(Some(Get(item.fields, endpointKey).GetOr(JArr([]))));
      }
      assert items[i..][1..] == items[i + 1..];
      i := i + 1;
    }
    return Ok(None);
  }

  class ConnectorDiscoveryService {
    const connectorDiscoveryKey: string
    const cacheTimeoutSeconds: int
    const endpointAddressKey: string
    const endpointsKey: string
    const returnTypeKey: string
    var discoveryCache: map<string, CacheEntry>
    var connectorDiscoveryUrl: Json

    /** The fields `__init__` assigns before it resolves the default key; see `Create`. */
    constructor Empty(connectorDiscoveryKey: string, cacheTimeoutSeconds: int, endpointAddressKey: string,
                      endpointsKey: string, returnTypeKey: string)
      ensures this.connectorDiscoveryKey == connectorDiscoveryKey
      ensures this.cacheTimeoutSeconds == cacheTimeoutSeconds
      ensures this.endpointAddressKey == endpointAddressKey
      ensures this.endpointsKey == endpointsKey
      ensures this.returnTypeKey == returnTypeKey
      ensures discoveryCache == map[] && connectorDiscoveryUrl == JNull
    {
      this.connectorDiscoveryKey := connectorDiscoveryKey;
      this.cacheTimeoutSeconds := cacheTimeoutSeconds;
      this.endpointAddressKey := endpointAddressKey;
      this.endpointsKey := endpointsKey;
      this.returnTypeKey := returnTypeKey;
      discoveryCache := map[];
      connectorDiscoveryUrl := JNull;
    }

    /** The finder's answer for `key`, with this service's response keys. */
    function Fetch(finder: FinderCall, key: string): Result<Json, DiscoveryError> {
      GetConnectorDiscoveryUrl(finder, key, endpointsKey, endpointAddressKey, returnTypeKey)
    }

    /** An entry is fresh while its age does not exceed the timeout. */
    predicate IsFresh(e: CacheEntry, now: int) {
      now - e.timestamp <= cacheTimeoutSeconds
    }

    /**
     * `_get_or_update_discovery_url` as a function of the cache before the call: a fresh entry
     * is returned without calling the finder; otherwise the finder is called, a non-empty URL
     * is stored with the current time, and a failed refresh falls back to the cached URL,
     * however stale, when there is one.
     */
    function Resolve(cache: map<string, CacheEntry>, k: string, now: int, finder: FinderCall): (r: Resolved)
      ensures k in cache && IsFresh(cache[k], now) ==> !r.called && r.url == Ok(cache[k].url) && r.cache == cache
      ensures !(k in cache && IsFresh(cache[k], now)) ==> r.called
      ensures r.called && Fetch(finder, k).Ok? && Truthy(Fetch(finder, k).value) ==>
        r.url == Fetch(finder, k) && r.cache == cache[k := CacheEntry(Fetch(finder, k).value, now)]
      ensures r.called && !(Fetch(finder, k).Ok? && Truthy(Fetch(finder, k).value)) ==>
        && r.cache == cache
        && r.url == if k in cache then Ok(cache[k].url)
                    else if Fetch(finder, k).Err? then Err(Fetch(finder, k).error)
                    else Err(CacheMiss)
    {
      if k in cache && IsFresh(cache[k], now) then Resolved(Ok(cache[k].url), cache, false)
      else
        match Fetch(finder, k)
        case Ok(url) =>
          if Truthy(url) then Resolved(Ok(url), cache[k := CacheEntry(url, now)], true)
          else Resolved(if k in cache then Ok(cache[k].url) else Err(CacheMiss), cache, true)
        case Err(e) => Resolved(if k in cache then Ok(cache[k].url) else Err(e), cache, true)
    }

    /** The cache never loses a key, and only the resolved key's entry can change. */
    lemma ResolveKeepsOthers(cache: map<string, CacheEntry>, k: string, now: int, finder: FinderCall)
      ensures var r := Resolve(cache, k, now, finder);
        && cache.Keys <= r.cache.Keys
        && (forall k' :: k' in cache && k' != k ==> r.cache[k'] == cache[k'])
        && (forall k' :: k' in r.cache && k' !in cache ==> k' == k)
    {
    }

    /** Once a key is cached, resolving it always yields a URL, whatever the finder does. */
    lemma ResolveAvailable(cache: map<string, CacheEntry>, k: string, now: int, finder: FinderCall)
      requires k in cache
      ensures Resolve(cache, k, now, finder).url.Ok?
    {
    }

    /**
     * A URL just fetched is reused, without calling the finder, by every resolution within
     * the timeout, whatever the finder would answer then.
     */
    lemma ResolveReuse(cache: map<string, CacheEntry>, k: string, now: int, finder: FinderCall,
                       later: int, finder': FinderCall)
      requires Resolve(cache, k, now, finder).called && Fetch(finder, k).Ok? && Truthy(Fetch(finder, k).value)
      requires now <= later <= now + cacheTimeoutSeconds
      ensures var first := Resolve(cache, k, now, finder);
        var second := Resolve(first.cache, k, later, finder');
        !second.called && second.url == first.url && second.cache == first.cache
    {
      var first := Resolve(cache, k, now, finder);
      assert first.cache[k] == CacheEntry(Fetch(finder, k).value, now);
    }

    /** `_get_or_update_discovery_url`: the steps of `Resolve` on the cache field. */
    method GetOrUpdateDiscoveryUrl(key: Option<string>, now: int, finder: FinderCall)
      returns (r: Result<Json, DiscoveryError>, called: bool)
      modifies this`discoveryCache
      ensures var res := Resolve(old(discoveryCache), key.GetOr(connectorDiscoveryKey), now, finder);
        r == res.url && called == res.called && discoveryCache == res.cache
    {
      var k := if key.None? then connectorDiscoveryKey else key.value;
      var entry := if k in discoveryCache then Some(discoveryCache[k]) else None;
      called := false;
      if entry.None? || now - entry.value.timestamp > cacheTimeoutSeconds {
        called := true;
        var url := GetConnectorDiscoveryUrl(finder, k, endpointsKey, endpointAddressKey, returnTypeKey);
        if url.Ok? {
          if Truthy(url.value) {
            // the cache is updated only with a non-empty url
            discoveryCache := discoveryCache[k := CacheEntry(url.value, now)];
          }
        } else {
          if entry.Some? {
            return Ok(entry.value.url), called;
          }
          return Err(url.error), called;
        }
      }
      if k !in discoveryCache {
        return Err(CacheMiss), called;
      }
      return Ok(discoveryCache[k].url), called;
    }

    /** `__init__`: builds the service and resolves the default key; the constructor raises when that fails. */
    static method Create(connectorDiscoveryKey: string, cacheTimeoutSeconds: int, endpointAddressKey: string,
                         endpointsKey: string, returnTypeKey: string, now: int, finder: FinderCall)
      returns (r: Result<ConnectorDiscoveryService, DiscoveryError>)
      ensures var fetched := GetConnectorDiscoveryUrl(finder, connectorDiscoveryKey, endpointsKey, endpointAddressKey, returnTypeKey);
        && (r.Ok? <==> fetched.Ok? && Truthy(fetched.value))
        && (r.Ok? ==>
              && fresh(r.value)
              && r.value.connectorDiscoveryKey == connectorDiscoveryKey
              && r.value.cacheTimeoutSeconds == cacheTimeoutSeconds
              && r.value.connectorDiscoveryUrl == fetched.value
              && r.value.discoveryCache == map[connectorDiscoveryKey := CacheEntry(fetched.value, now)])
    {
      var s := new ConnectorDiscoveryService.Empty(connectorDiscoveryKey, cacheTimeoutSeconds, endpointAddressKey,
                                                   endpointsKey, returnTypeKey);
      var url, _ := s.GetOrUpdateDiscoveryUrl(None, now, finder);
      if url.Err? {
        return Err(url.error);
      }
      s.connectorDiscoveryUrl := url.value;
      return Ok(s);
    }

    /**
     * `find_connector_by_bpn`: resolves the discovery URL through the cache (its error
     * propagates), posts `[bpn]` to that URL, and reads the connector discovery response.
     */
    method FindConnectorByBpn(bpn: string, now: int, finder: FinderCall, post: (Json, Json) -> Option<Response>,
                              bpnKey: string := "bpn", endpointKey: string := "connectorEndpoint")
      returns (r: Result<Option<Json>, DiscoveryError>)
      modifies this`discoveryCache
      ensures var res := Resolve(old(discoveryCache), connectorDiscoveryKey, now, finder);
        && discoveryCache == res.cache
        && (res.url.Err? ==> r == Err(res.url.error))
        && (res.url.Ok? ==>
              var response := post(res.url.value, JArr([JStr(bpn)]));
              && (response.None? || response.value.status != 200 ==> r == Err(RequestFailed))
              && (response.Some? && response.value.status == 200 ==>
                    r == if PyIter(response.value.body).Err? then Err(MalformedResponse)
                         else FirstByBpn(PyIter(response.value.body).value, bpn, bpnKey, endpointKey)))
    {
      var discoveryUrl, _ := GetOrUpdateDiscoveryUrl(None, now, finder);
      if discoveryUrl.Err? {
        return Err(discoveryUrl.error);
      }
      var response := post(discoveryUrl.value, JArr([JStr(bpn)]));
      if response.None? || response.value.status != 200 {
        return Err(RequestFailed);
      }
      r := ScanForBpn(response.value.body, bpn, bpnKey, endpointKey);
    }
  }
}

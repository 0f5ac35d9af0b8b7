/**
 * The geocoding dispatcher: `geocode(provider, query, key)` validates its
 * arguments in a fixed order, then hands the URL-encoded query to the
 * provider's handler, which makes one HTTP GET and turns the outcome into the
 * uniform result {status, http-code, service-code, lat, lon}.
 *
 * The HTTP call is the function parameter `get`, from URL to outcome (the
 * outcome already holds the decoded JSON body), and PHP's `urlencode` is the
 * function parameter `urlencode`. Coordinates are kept as the JSON values the
 * provider sent.
 */
module Geocoder {
  import opened Wrappers
  import Php

  /** A value produced by `json_decode`: objects are stdClass, arrays are PHP arrays. */
  datatype Json =
    | JNull
    | JBool(b: bool)
    | JNum(n: real)
    | JStr(s: string)
    | JArray(items: seq<Json>)
    | JObject(fields: map<string, Json>)

  /** `$j->name`: null when `j` is not an object or has no such member. */
  function Member(j: Json, name: string): Json {
    if j.JObject? && name in j.fields then j.fields[name] else JNull
  }

  /** `$j[i]`: null when `j` is not an array or is too short. */
  function Item(j: Json, i: nat): Json {
    if j.JArray? && i < |j.items| then j.items[i] else JNull
  }

  /** PHP's `$x == 'token'` for a decoded JSON value (PHP 8 rules). */
  predicate LooselyEquals(j: Json, token: string)
    ensures j == JStr(token) ==> LooselyEquals(j, token)
    ensures j == JNull ==> (LooselyEquals(j, token) <==> token == "")
    ensures j.JArray? || j.JObject? ==> !LooselyEquals(j, token)
  {
    match j
    case JNull => token == ""
    case JBool(b) => b == !Php.Empty(token)
    case JNum(n) => Php.IsDecimal(token) && n == Php.DecimalValue(token) as real
    case JStr(s) => Php.LooseStringEquals(s, token)
    case _ => false
  }

  /** What `wp_remote_get` gives back: an error, or a status code and the decoded body. */
  datatype HttpOutcome = TransportError | Response(code: int, body: Json)

  datatype Status = Ok | Failed | BadProvider | EmptyQuery | EmptyKey

  /**
   * The array `geocode` returns: only a status when an argument is rejected,
   * otherwise all five entries; None stands for the initial ''.
   */
  datatype GeocodeResult =
    | Rejected(status: Status)
    | Answer(status: Status, httpCode: Option<int>, serviceCode: Option<Json>, lat: Option<Json>, lon: Option<Json>)

  datatype Handler = Bing | CloudMade | GoogleV3 | Yahoo

  datatype ProviderMeta = ProviderMeta(handler: Handler, hasKey: bool)

  /** The provider table: each provider's handler and whether it needs a key. */
  const Providers: map<string, ProviderMeta> := map[
    "microsoft7" := ProviderMeta(Bing, true),
    "cloudmade" := ProviderMeta(CloudMade, true),
    "googlev3" := ProviderMeta(GoogleV3, false),
    "yahoo" := ProviderMeta(Yahoo, true)
  ]

  // ---------------------------------------------------------------------------
  // Request URLs, from the providers' templates

  const BING_ENDPOINT: string := "http://dev.virtualearth.net/REST/v1/Locations?query="
  const YAHOO_ENDPOINT: string := "http://where.yahooapis.com/geocode?q="
  const CLOUDMADE_ENDPOINT: string := "http://geocoding.cloudmade.com/"
  const GOOGLE_ENDPOINT: string := "http://maps.googleapis.com/maps/api/geocode/json?address="

  /** BING_URL: the query, then the key. */
  function BingUrl(query: string, key: string): (url: string)
    ensures Php.StartsWith(url, BING_ENDPOINT + query)
    ensures Php.EndsWith(url, key)
  {
    BING_ENDPOINT + query + "&key=" + key
  }

  /** YAHOO_URL: the query, then the key as `appid`. */
  function YahooUrl(query: string, key: string): (url: string)
    ensures Php.StartsWith(url, YAHOO_ENDPOINT + query)
    ensures Php.EndsWith(url, key)
  {
    YAHOO_ENDPOINT + query + "&flags=J&appid=" + key
  }

  /** CLOUDMADE_URL: the key is a path segment, before the query. */
  function CloudMadeUrl(query: string, key: string): (url: string)
    ensures Php.StartsWith(url, CLOUDMADE_ENDPOINT + key + "/")
    ensures Php.EndsWith(url, query)
  {
    CLOUDMADE_ENDPOINT + key + "/geocoding/v2/find.js?query=" + query
  }

  /** GOOGLE_URL: the query only; no key. */
  function GoogleUrl(query: string): (url: string)
    ensures Php.StartsWith(url, GOOGLE_ENDPOINT + query)
  {
    GOOGLE_ENDPOINT + query + "&sensor=false"
  }

  /** The URL each handler requests. */
  function RequestUrl(h: Handler, query: string, key: string): string {
    match h
    case Bing => BingUrl(query, key)
    case Yahoo => YahooUrl(query, key)
    case CloudMade => CloudMadeUrl(query, key)
    case GoogleV3 => GoogleUrl(query)
  }

  // ---------------------------------------------------------------------------
  // The uniform result contract

  /** Where each provider reports success: Bing and Google a status string, Yahoo an error code, CloudMade a found count. */
  function ServiceCode(h: Handler, body: Json): Json {
    match h
    case Bing => Member(body, "statusDescription")
    case Yahoo => Member(Member(body, "ResultSet"), "Error")
    case GoogleV3 => Member(body, "status")
    case CloudMade => Member(body, "found")
  }

  /** The value of the service code that means success. */
  function SuccessToken(h: Handler): string {
    match h
    case Bing => "OK"
    case Yahoo => "0"
    case GoogleV3 => "OK"
    case CloudMade => "1"
  }

  /** The first result: Bing's first resource, Yahoo's and Google's first result, CloudMade's first feature. */
  function FirstResult(h: Handler, body: Json): Json {
    match h
    case Bing => Item(Member(Item(Member(body, "resourceSets"), 0), "resources"), 0)
    case Yahoo => Item(Member(Member(body, "ResultSet"), "Results"), 0)
    case GoogleV3 => Item(Member(body, "results"), 0)
    case CloudMade => Item(Member(body, "features"), 0)
  }

  function Latitude(h: Handler, body: Json): Json {
    var first := FirstResult(h, body);
    match h
    case Bing => Item(Member(Member(first, "point"), "coordinates"), 0)
    case Yahoo => Member(first, "latitude")
    case GoogleV3 => Member(Member(Member(first, "geometry"), "location"), "lat")
    case CloudMade => Item(Member(Member(first, "centroid"), "coordinates"), 0)
  }

  function Longitude(h: Handler, body: Json): Json {
    var first := FirstResult(h, body);
    match h
    case Bing => Item(Member(Member(first, "point"), "coordinates"), 1)
    case Yahoo => Member(first, "longitude")
    case GoogleV3 => Member(Member(Member(first, "geometry"), "location"), "lng")
    case CloudMade => Item(Member(Member(first, "centroid"), "coordinates"), 1)
  }

  /**
   * The result a handler of provider `h` promises for the outcome `res`: the
   * status is 'ok' exactly when the response is not an error, its code is 200
   * and the service code matches the provider's success value, and 'failed'
   * otherwise; the http-code is set by every response, the service-code by
   * every 200 response, and lat/lon only on success.
   */
  predicate Uniform(r: GeocodeResult, h: Handler, res: HttpOutcome) {
    && r.Answer?
    && (r.status == Ok || r.status == Failed)
    && (r.status == Ok <==> res.Response? && res.code == 200 && LooselyEquals(ServiceCode(h, res.body), SuccessToken(h)))
    && r.httpCode == (if res.Response? then Some(res.code) else None)
    && r.serviceCode == (if res.Response? && res.code == 200 then Some(ServiceCode(h, res.body)) else None)
    && (r.status == Ok ==> r.lat == Some(Latitude(h, res.body)) && r.lon == Some(Longitude(h, res.body)))
    && (r.status == Failed ==> r.lat == None && r.lon == None)
  }

  // ---------------------------------------------------------------------------
  // The handlers

  /** `bing_geocode` */
  function BingGeocode(query: string, key: string, get: string -> HttpOutcome): (r: GeocodeResult)
    ensures Uniform(r, Bing, get(BingUrl(query, key)))
  {
    match get(BingUrl(query, key))
    case TransportError => Answer(Failed, None, None, None, None)
    case Response(code, json) =>
      if code != 200 then Answer(Failed, Some(code), None, None, None)
      else
        var serviceCode := Member(json, "statusDescription");
        if !LooselyEquals(serviceCode, "OK") then Answer(Failed, Some(code), Some(serviceCode), None, None)
        else
          var resource := Item(Member(Item(Member(json, "resourceSets"), 0), "resources"), 0);
          var coordinates := Member(Member(resource, "point"), "coordinates");
          Answer(Ok, Some(code), Some(serviceCode), Some(Item(coordinates, 0)), Some(Item(coordinates, 1)))
  }

  /** `yahoo_geocode` */
  function YahooGeocode(query: string, key: string, get: string -> HttpOutcome): (r: GeocodeResult)
    ensures Uniform(r, Yahoo, get(YahooUrl(query, key)))
  {
    match get(YahooUrl(query, key))
    case TransportError => Answer(Failed, None, None, None, None)
    case Response(code, json) =>
      if code != 200 then Answer(Failed, Some(code), None, None, None)
      else
        var serviceCode := Member(Member(json, "ResultSet"), "Error");
        if !LooselyEquals(serviceCode, "0") then Answer(Failed, Some(code), Some(serviceCode), None, None)
        else
          var result := Item(Member(Member(json, "ResultSet"), "Results"), 0);
          Answer(Ok, Some(code), Some(serviceCode), Some(Member(result, "latitude")), Some(Member(result, "longitude")))
  }

  /** `googlev3_geocode`: the key is accepted and ignored. */
  function GoogleV3Geocode(query: string, key: string, get: string -> HttpOutcome): (r: GeocodeResult)
    ensures Uniform(r, GoogleV3, get(GoogleUrl(query)))
  {
    match get(GoogleUrl(query))
    case TransportError => Answer(Failed, None, None, None, None)
    case Response(code, json) =>
      if code != 200 then Answer(Failed, Some(code), None, None, None)
      else
        var serviceCode := Member(json, "status");
        if !LooselyEquals(serviceCode, "OK") then Answer(Failed, Some(code), Some(serviceCode), None, None)
        else
          var location := Member(Member(Item(Member(json, "results"), 0), "geometry"), "location");
          Answer(Ok, Some(code), Some(serviceCode), Some(Member(location, "lat")), Some(Member(location, "lng")))
  }

  /** `cloudmade_geocode` */
  function CloudMadeGeocode(query: string, key: string, get: string -> HttpOutcome): (r: GeocodeResult)
    ensures Uniform(r, CloudMade, get(CloudMadeUrl(query, key)))
  {
    match get(CloudMadeUrl(query, key))
    case TransportError => Answer(Failed, None, None, None, None)
    case Response(code, json) =>
      if code != 200 then Answer(Failed, Some(code), None, None, None)
      else
        var serviceCode := Member(json, "found");
        if !LooselyEquals(serviceCode, "1") then Answer(Failed, Some(code), Some(serviceCode), None, None)
        else
          var coordinates := Member(Member(Item(Member(json, "features"), 0), "centroid"), "coordinates");
          Answer(Ok, Some(code), Some(serviceCode), Some(Item(coordinates, 0)), Some(Item(coordinates, 1)))
  }

  /** The call through the provider table's handler name. */
  function Dispatch(h: Handler, query: string, key: string, get: string -> HttpOutcome): (r: GeocodeResult)
    ensures Uniform(r, h, get(RequestUrl(h, query, key)))
  {
    match h
    case Bing => BingGeocode(query, key, get)
    case Yahoo => YahooGeocode(query, key, get)
    case GoogleV3 => GoogleV3Geocode(query, key, get)
    case CloudMade => CloudMadeGeocode(query, key, get)
  }

  // ---------------------------------------------------------------------------
  // geocode

  /** PHP's `!isset($x) || empty($x)` on a string argument that may be null (None). */
  predicate Blank(x: Option<string>) {
    x.None? || Php.Empty(x.value)
  }

  /** The key as the handler receives it; a null key prints as ''. */
  function KeyText(key: Option<string>): string {
    if key.Some? then key.value else ""
  }

  /** `is_valid_provider` */
  predicate IsValidProvider(provider: Option<string>)
    ensures IsValidProvider(provider) <==> provider.Some? && provider.value in Providers
  {
    if provider.Some? && !Php.Empty(provider.value) then provider.value in Providers else false
  }

  /** Does `provider` need a key it was not given? */
  predicate MissingKey(provider: Option<string>, key: Option<string>)
    requires IsValidProvider(provider)
  {
    Providers[provider.value].hasKey && Blank(key)
  }

  /**
   * `geocode($provider, $query, $key)`: bad provider, then empty query, then
   * empty key, each answered without a request; otherwise one request to the
   * provider's URL for the URL-encoded query, answered by the uniform contract.
   */
  function Geocode(provider: Option<string>, query: Option<string>, key: Option<string>,
                   urlencode: string -> string, get: string -> HttpOutcome): (r: GeocodeResult)
    ensures !IsValidProvider(provider) ==> r == Rejected(BadProvider)
    ensures IsValidProvider(provider) && Blank(query) ==> r == Rejected(EmptyQuery)
    ensures IsValidProvider(provider) && !Blank(query) && MissingKey(provider, key) ==> r == Rejected(EmptyKey)
    ensures IsValidProvider(provider) && !Blank(query) && !MissingKey(provider, key) ==>
      var h := Providers[provider.value].handler;
      Uniform(r, h, get(RequestUrl(h, urlencode(query.value), KeyText(key))))
  {
    if !IsValidProvider(provider) then Rejected(BadProvider)
    else if query.None? || Php.Empty(query.value) then Rejected(EmptyQuery)
    else
      var meta := Providers[provider.value];
      if meta.hasKey && (key.None? || Php.Empty(key.value)) then Rejected(EmptyKey)
      else Dispatch(meta.handler, urlencode(query.value), KeyText(key), get)
  }
}

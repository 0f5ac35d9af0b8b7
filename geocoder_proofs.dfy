/** What the geocoding dispatcher guarantees. */
module GeocoderProofs {
  import opened Wrappers
  import opened Geocoder

  /** The providers that demand a key. */
  const KeyedProviders: set<string> := {"microsoft7", "cloudmade", "yahoo"}

  /** 'bad-provider' exactly for a provider outside the table, whatever the query and key. */
  lemma BadProviderExactly(provider: Option<string>, query: Option<string>, key: Option<string>,
                           urlencode: string -> string, get: string -> HttpOutcome)
    ensures Geocode(provider, query, key, urlencode, get).status == BadProvider <==>
      !(provider.Some? && provider.value in {"microsoft7", "cloudmade", "googlev3", "yahoo"})
  {
  }

  /** 'empty-key' exactly for a keyed provider with a non-empty query and an empty or missing key. */
  lemma EmptyKeyExactly(provider: Option<string>, query: Option<string>, key: Option<string>,
                        urlencode: string -> string, get: string -> HttpOutcome)
    ensures Geocode(provider, query, key, urlencode, get).status == EmptyKey <==>
      provider.Some? && provider.value in KeyedProviders && !Blank(query) && Blank(key)
  {
    var r := Geocode(provider, query, key, urlencode, get);
    if IsValidProvider(provider) && !Blank(query) && !MissingKey(provider, key) {
      assert r.status == Ok || r.status == Failed;
    }
  }

  /** googlev3 never answers 'empty-key'. */
  lemma GoogleNeverEmptyKey(query: Option<string>, key: Option<string>,
                            urlencode: string -> string, get: string -> HttpOutcome)
    ensures Geocode(Some("googlev3"), query, key, urlencode, get).status != EmptyKey
  {
    EmptyKeyExactly(Some("googlev3"), query, key, urlencode, get);
  }

  /** googlev3 with a non-empty query and no key makes its request and answers from it. */
  lemma GoogleNeedsNoKey(query: string, key: Option<string>,
                         urlencode: string -> string, get: string -> HttpOutcome)
    requires !Blank(Some(query))
    ensures Uniform(Geocode(Some("googlev3"), Some(query), key, urlencode, get), GoogleV3, get(GoogleUrl(urlencode(query))))
  {
  }

  /** A rejected call makes no request: its result does not depend on the network. */
  lemma RejectionMakesNoRequest(provider: Option<string>, query: Option<string>, key: Option<string>,
                                urlencode: string -> string, get: string -> HttpOutcome, get': string -> HttpOutcome)
    requires Geocode(provider, query, key, urlencode, get).Rejected?
    ensures Geocode(provider, query, key, urlencode, get) == Geocode(provider, query, key, urlencode, get')
  {
  }

  /**
   * An accepted call makes one request, to the provider's URL for the
   * URL-encoded query: two networks that agree on that URL give the same result.
   */
  lemma {:induction false} SingleRequest(provider: Option<string>, query: Option<string>, key: Option<string>,
                                         urlencode: string -> string, get: string -> HttpOutcome, get': string -> HttpOutcome)
    requires IsValidProvider(provider) && !Blank(query) && !MissingKey(provider, key)
    requires var h := Providers[provider.value].handler;
      var url := RequestUrl(h, urlencode(query.value), KeyText(key));
      get(url) == get'(url)
    ensures Geocode(provider, query, key, urlencode, get) == Geocode(provider, query, key, urlencode, get')
  {
    var h := Providers[provider.value].handler;
    UniformIsFunctional(Geocode(provider, query, key, urlencode, get), Geocode(provider, query, key, urlencode, get'),
                        h, get(RequestUrl(h, urlencode(query.value), KeyText(key))));
  }

  /** The uniform contract determines the result from the outcome. */
  lemma UniformIsFunctional(r: GeocodeResult, r': GeocodeResult, h: Handler, res: HttpOutcome)
    requires Uniform(r, h, res) && Uniform(r', h, res)
    ensures r == r'
  {
  }

  /**
   * A transport error, a non-200 response, or a 200 response whose body did
   * not decode to an object yields 'failed' without coordinates.
   */
  lemma MalformedResponsesFail(r: GeocodeResult, h: Handler, res: HttpOutcome)
    requires Uniform(r, h, res)
    requires res.TransportError? || res.code != 200 || !res.body.JObject?
    ensures r.status == Failed && r.lat == None && r.lon == None
    ensures res.TransportError? ==> r.httpCode == None && r.serviceCode == None
    ensures res.Response? && res.code != 200 ==> r.httpCode == Some(res.code) && r.serviceCode == None
  {
    if res.Response? && res.code == 200 {
      assert ServiceCode(h, res.body) == JNull;
    }
  }

  /** A 200 Bing response with statusDescription OK and first point [37.42, -122.08] answers ok with those coordinates. */
  lemma BingSample(urlencode: string -> string)
    ensures var coordinates := JArray([JNum(37.42), JNum(-122.08)]);
      var point := JObject(map["coordinates" := coordinates]);
      var resource := JObject(map["point" := point]);
      var body := JObject(map[
        "statusDescription" := JStr("OK"),
        "resourceSets" := JArray([JObject(map["resources" := JArray([resource])])])]);
      Geocode(Some("microsoft7"), Some("Googleplex"), Some("key"), urlencode, (url: string) => Response(200, body))
        == Answer(Ok, Some(200), Some(JStr("OK")), Some(JNum(37.42)), Some(JNum(-122.08)))
  {
  }

  /** The query check comes before the key check: yahoo with an empty query is 'empty-query'. */
  lemma YahooEmptyQuery(urlencode: string -> string, get: string -> HttpOutcome)
    ensures Geocode(Some("yahoo"), Some(""), Some("somekey"), urlencode, get) == Rejected(EmptyQuery)
    ensures Geocode(Some("yahoo"), Some("0"), Some(""), urlencode, get) == Rejected(EmptyQuery)
  {
  }

  /**
   * Yahoo's error code matches '0' as a number, a numeric string or false;
   * CloudMade's found count matches '1' as a number, a numeric string or true.
   */
  lemma NumericServiceCodes()
    ensures LooselyEquals(JNum(0.0), "0") && LooselyEquals(JStr("0"), "0") && LooselyEquals(JStr("00"), "0")
    ensures LooselyEquals(JBool(false), "0") && !LooselyEquals(JBool(true), "0")
    ensures LooselyEquals(JNum(1.0), "1") && LooselyEquals(JStr("1"), "1") && LooselyEquals(JBool(true), "1")
    ensures !LooselyEquals(JStr("ok"), "OK") && !LooselyEquals(JNull, "OK")
  {
  }
}

/**
 * The places / geocoding client of the TypeScript backend
 * (backend/src/services/google-places.ts): the domain key every later join
 * uses, the error branches of the three provider calls, the nearby-search
 * pagination loop and the chain-exclusion / website / sort / limit pipeline
 * that picks the competitors.
 *
 * The provider is not called: each call is a function parameter that gives
 * the provider's reply to the request (a page token, a place id, an address).
 */
module GooglePlaces {
  import opened Wrappers
  import opened Text
  import Seqs
  import StableSort

  const KeyMissing: string := "Google Places API key not configured"

  /** At most this many nearby-search pages are fetched (3 pages of 20). */
  const MaxPages: nat := 3

  /** The default number of competitors returned. */
  const DefaultLimit: nat := 10

  /** Chain brands never offered as competitors (matched in the lower-cased name). */
  const ExcludedChains: seq<string> := ["aspen dental", "heartland dental", "pacific dental"]

  // ---------------------------------------------------------------------------
  // Domain key (`extractDomain`)
  // ---------------------------------------------------------------------------

  /** Characters that end the authority of a special URL. */
  predicate EndsAuthority(c: char) {
    c == '/' || c == '?' || c == '#' || c == '\\'
  }

  /** Characters the URL parser refuses in a host (IP literals and user info are treated the same way). */
  predicate ForbiddenInHost(c: char) {
    c == ' ' || c == '<' || c == '>' || c == '@' || c == '[' || c == ']' || c == '^' || c == '|'
  }

  predicate IsColon(c: char) { c == ':' }

  predicate IsSlash(c: char) { c == '/' }

  predicate IsHostChar(c: char) {
    !EndsAuthority(c) && c != ':' && !ForbiddenInHost(c)
  }

  predicate ValidHost(h: string) {
    h != [] && forall i :: 0 <= i < |h| ==> IsHostChar(h[i])
  }

  /** What follows an `http://` or `https://` scheme, or None for any other text. */
  function SchemeRest(t: string): Option<string> {
    if StartsWith(t, "https://") then Some(t[8..])
    else if StartsWith(t, "http://") then Some(t[7..])
    else None
  }

  /**
   * `new URL(t).hostname`: the authority up to the port, lower-cased; None
   * where the constructor throws.
   */
  function UrlHostname(t: string): (h: Option<string>)
    ensures h.Some? ==> ValidHost(h.value) && IsLowered(h.value)
  {
    match SchemeRest(t)
    case None => None
    case Some(rest) =>
      var authority := TakeUntil(rest, EndsAuthority);
      var host := AsciiLower(TakeUntil(authority, IsColon));
      if ValidHost(host) then Some(host) else None
  }

  /** The text `extractDomain` hands to the URL parser: `https://` is added unless it starts with `http`. */
  function ParseTarget(url: string): string {
    if StartsWith(url, "http") then url else "https://" + url
  }

  /** `url.replace(/^(https?:\/\/)?(www\.)?/, '').split('/')[0]`, the path taken when parsing throws. */
  function FallbackDomain(url: string): (d: string)
    ensures '/' !in d
  {
    var noScheme :=
      if StartsWith(url, "https://") then url[8..]
      else if StartsWith(url, "http://") then url[7..]
      else url;
    TakeUntil(StripPrefix(noScheme, "www."), IsSlash)
  }

  /**
   * `GooglePlacesService.extractDomain`: the parsed host without one leading
   * `www.`, or the fallback text when parsing throws. It never throws itself,
   * and the key never holds a `/`.
   */
  function ExtractDomain(url: string): (d: string)
    ensures '/' !in d
  {
    match UrlHostname(ParseTarget(url))
    case Some(host) =>
      assert forall i :: 0 <= i < |host| ==> host[i] != '/';
      StripPrefix(host, "www.")
    case None => FallbackDomain(url)
  }

  /** Lower-casing keeps every host character a host character. */
  lemma LowerHost(h: string)
    requires ValidHost(h)
    ensures ValidHost(AsciiLower(h)) && IsLowered(AsciiLower(h))
  {
  }

  /** After an http(s) scheme the parser reads the rest of the text, and the `http` test passes. */
  lemma SchemeRestOf(scheme: string, rest: string)
    requires scheme == "http://" || scheme == "https://"
    ensures StartsWith(scheme + rest, "http")
    ensures SchemeRest(scheme + rest) == Some(rest)
  {
    var t := scheme + rest;
    assert t[..|scheme|] == scheme;
    assert t[..4] == "http";
    assert t[|scheme|..] == rest;
    assert scheme == "http://" ==> t[4] == ':';
  }

  /**
   * The hostname of `scheme + host + tail`, where `tail` is empty or opens the
   * port, the path, the query or the fragment, is the lower-cased host.
   */
  lemma HostnameOfUrl(scheme: string, host: string, tail: string)
    requires scheme == "http://" || scheme == "https://"
    requires ValidHost(host)
    requires tail == [] || tail[0] == ':' || EndsAuthority(tail[0])
    ensures UrlHostname(scheme + host + tail) == Some(AsciiLower(host))
  {
    SchemeRestOf(scheme, host + tail);
    assert scheme + host + tail == scheme + (host + tail);
    TakeUntilAppend(host, tail, EndsAuthority);
    var t := TakeUntil(tail, EndsAuthority);
    assert t != [] ==> t[0] == tail[0];
    TakeUntilPrefix(host, t, IsColon);
    LowerHost(host);
  }

  /** The key of an http(s) URL is its host, lower-cased and without one leading `www.`. */
  lemma DomainOfUrl(scheme: string, host: string, tail: string)
    requires scheme == "http://" || scheme == "https://"
    requires ValidHost(host)
    requires tail == [] || tail[0] == ':' || EndsAuthority(tail[0])
    ensures ExtractDomain(scheme + host + tail) == StripPrefix(AsciiLower(host), "www.")
  {
    SchemeRestOf(scheme, host + tail);
    assert scheme + host + tail == scheme + (host + tail);
    HostnameOfUrl(scheme, host, tail);
  }

  /** Text without a scheme is read as an https URL: a bare host gives the same key. */
  lemma DomainOfBareHost(host: string, tail: string)
    requires ValidHost(host)
    requires tail == [] || tail[0] == ':' || EndsAuthority(tail[0])
    requires !StartsWith(host + tail, "http")
    ensures ExtractDomain(host + tail) == StripPrefix(AsciiLower(host), "www.")
  {
    assert ParseTarget(host + tail) == "https://" + host + tail;
    HostnameOfUrl("https://", host, tail);
  }

  /** A `www.` label in front of a lower-case host gives a lower-case host. */
  lemma WwwHost(host: string)
    requires ValidHost(host) && IsLowered(host)
    ensures ValidHost("www." + host) && IsLowered("www." + host)
  {
    var www := "www." + host;
    forall i | 0 <= i < |www| ensures IsHostChar(www[i]) && !IsUpperLetter(www[i]) {
      if i < 4 {
        assert www[i] == "www."[i];
      } else {
        assert www[i] == host[i - 4];
      }
    }
  }

  /** A `www.` label after the scheme is dropped from the key. */
  lemma WwwUrlKey(host: string, path: string)
    requires ValidHost(host) && IsLowered(host)
    requires path == [] || path[0] == '/'
    ensures ExtractDomain("https://www." + host + path) == host
  {
    var www := "www." + host;
    WwwHost(host);
    LoweredFixed(www);
    assert "https://" + "www." == "https://www.";
    assert "https://www." + host + path == "https://" + www + path;
    DomainOfUrl("https://", www, path);
    assert www[..4] == "www." && www[4..] == host;
  }

  /**
   * `foo.com`, `https://foo.com/x` and `https://www.foo.com/x` share one key,
   * `foo.com`, for every lower-case host not itself starting with `www.` or `http`.
   */
  lemma SameKeyForms(host: string, path: string)
    requires ValidHost(host) && IsLowered(host)
    requires !StartsWith(host, "www.") && !StartsWith(host, "http")
    requires path == [] || path[0] == '/'
    ensures ExtractDomain(host) == host
    ensures ExtractDomain("https://" + host + path) == host
    ensures ExtractDomain("https://www." + host + path) == host
  {
    LoweredFixed(host);
    assert ExtractDomain(host) == host by {
      assert host + [] == host;
      DomainOfBareHost(host, []);
    }
    DomainOfUrl("https://", host, path);
    WwwUrlKey(host, path);
  }

  /** Host characters without a scheme and a leading `www.`: the parser refuses them and the fallback keeps them. */
  lemma PlainHostFallback(d: string)
    requires forall i :: 0 <= i < |d| ==> IsHostChar(d[i])
    requires !StartsWith(d, "www.")
    ensures SchemeRest(d) == None
    ensures FallbackDomain(d) == d
  {
    assert !StartsWith(d, "https://") by {
      if |d| >= 8 { assert d[..8][5] == d[5] && IsHostChar(d[5]); }
    }
    assert !StartsWith(d, "http://") by {
      if |d| >= 7 { assert d[..7][4] == d[4] && IsHostChar(d[4]); }
    }
    TakeUntilAll(d, IsSlash);
  }

  /**
   * Normalising a key again changes nothing, for every URL that parses and
   * whose key does not itself start with `www.`.
   */
  lemma ExtractDomainIdempotent(url: string)
    requires UrlHostname(ParseTarget(url)).Some?
    requires !StartsWith(ExtractDomain(url), "www.")
    ensures ExtractDomain(ExtractDomain(url)) == ExtractDomain(url)
  {
    ParsedKeyChars(url);
    LowerHostTextKey(ExtractDomain(url));
  }

  /** A key taken from a parsed host is made of lower-case host characters. */
  lemma ParsedKeyChars(url: string)
    requires UrlHostname(ParseTarget(url)).Some?
    ensures var d := ExtractDomain(url); forall i :: 0 <= i < |d| ==> IsHostChar(d[i]) && !IsUpperLetter(d[i])
  {
    var host := UrlHostname(ParseTarget(url)).value;
    var d := ExtractDomain(url);
    assert d == host[|host| - |d|..];
    forall i | 0 <= i < |d| ensures IsHostChar(d[i]) && !IsUpperLetter(d[i]) {
      assert d[i] == host[|host| - |d| + i];
    }
  }

  /** Lower-case host characters without a leading `www.` are their own key. */
  lemma LowerHostTextKey(d: string)
    requires forall i :: 0 <= i < |d| ==> IsHostChar(d[i]) && !IsUpperLetter(d[i])
    requires !StartsWith(d, "www.")
    ensures ExtractDomain(d) == d
  {
    PlainHostFallback(d);
    if d == [] {
      assert ParseTarget(d) == "https://";
      assert SchemeRest("https://") == Some([]);
    } else if !StartsWith(d, "http") {
      assert d + [] == d;
      DomainOfBareHost(d, []);
      LoweredFixed(d);
    }
  }

  /** The key of a bare lower-case host behind one `www.` label is the host itself. */
  lemma WwwHostDomain(host: string)
    requires ValidHost(host) && IsLowered(host)
    ensures ExtractDomain("www." + host) == host
  {
    var www := "www." + host;
    WwwHost(host);
    assert www + [] == www;
    assert www[..4] == "www." && www[0] != 'h';
    DomainOfBareHost(www, []);
    LoweredFixed(www);
    assert StartsWith(www, "www.");
  }

  /** The key is not idempotent in general: a host with two leading `www.` labels loses one per pass. */
  lemma DoubleWwwNotIdempotent()
    ensures ExtractDomain("www.www.foo.com") == "www.foo.com"
    ensures ExtractDomain(ExtractDomain("www.www.foo.com")) == "foo.com"
  {
    var h0 := "foo.com";
    var h1 := "www." + h0;
    assert h1 == "www.foo.com" && "www." + h1 == "www.www.foo.com";
    assert ValidHost(h0) && IsLowered(h0);
    WwwHost(h0);
    WwwHostDomain(h0);
    WwwHostDomain(h1);
  }

  // ---------------------------------------------------------------------------
  // Provider replies
  // ---------------------------------------------------------------------------

  datatype LatLng = LatLng(lat: real, lng: real)

  datatype GeocodeCandidate = GeocodeCandidate(location: LatLng, formattedAddress: string)

  /** The geocoding reply: its status and its result list (`results?`). */
  datatype GeocodeReply = GeocodeReply(status: string, results: Option<seq<GeocodeCandidate>>)

  datatype GeocodingResult = GeocodingResult(lat: real, lng: real, formattedAddress: string)

  /** One nearby-search result (only the fields the pipeline reads). */
  datatype Place = Place(
    placeId: string,
    name: string,
    vicinity: Option<string>,
    formattedAddress: Option<string>,
    rating: Option<real>,
    userRatingsTotal: Option<int>,
    location: LatLng)

  /** A nearby-search page: status, results and the optional next-page token. */
  datatype NearbyReply = NearbyReply(status: string, results: Option<seq<Place>>, nextPageToken: Option<string>)

  /** A place-details reply: status and the optional website and phone of `result`. */
  datatype DetailsReply = DetailsReply(status: string, website: Option<string>, phone: Option<string>)

  datatype PlaceDetails = PlaceDetails(website: Option<string>, phone: Option<string>)

  datatype Competitor = Competitor(
    placeId: string,
    name: string,
    address: string,
    website: Option<string>,
    rating: Option<real>,
    reviewCount: int,
    location: LatLng)

  // ---------------------------------------------------------------------------
  // Geocoding and place details
  // ---------------------------------------------------------------------------

  /**
   * `geocodeAddress`: fails without an API key (and then sends nothing), fails
   * when the status is not OK or the result list is missing or empty, and
   * otherwise gives the first result.
   */
  function GeocodeAddress(apiKey: string, address: string, geocoder: string -> GeocodeReply): (r: Result<GeocodingResult>)
    ensures apiKey == "" ==> r == Err(KeyMissing)
    ensures apiKey != "" ==>
      var reply := geocoder(address);
      (r.Ok? <==> reply.status == "OK" && reply.results.Some? && reply.results.value != [])
      && (r.Err? ==> r.message == "Geocoding failed: " + reply.status)
      && (r.Ok? ==> var first := reply.results.value[0];
                    r.value == GeocodingResult(first.location.lat, first.location.lng, first.formattedAddress))
  {
    if apiKey == "" then Err(KeyMissing)
    else
      var reply := geocoder(address);
      if reply.status != "OK" || reply.results.None? || reply.results.value == [] then
        Err("Geocoding failed: " + reply.status)
      else
        var first := reply.results.value[0];
        Ok(GeocodingResult(first.location.lat, first.location.lng, first.formattedAddress))
  }

  /** `getPlaceDetails`: fails without an API key or on a status other than OK. */
  function GetPlaceDetails(apiKey: string, placeId: string, details: string -> DetailsReply): (r: Result<PlaceDetails>)
    ensures apiKey == "" ==> r == Err(KeyMissing)
    ensures apiKey != "" ==>
      (r.Ok? <==> details(placeId).status == "OK")
      && (r.Err? ==> r.message == "Place Details API error: " + details(placeId).status)
      && (r.Ok? ==> r.value.website == details(placeId).website)
  {
    if apiKey == "" then Err(KeyMissing)
    else
      var reply := details(placeId);
      if reply.status != "OK" then Err("Place Details API error: " + reply.status)
      else Ok(PlaceDetails(reply.website, reply.phone))
  }

  // ---------------------------------------------------------------------------
  // Nearby-search pagination (the loop of `findDentalCompetitors`)
  // ---------------------------------------------------------------------------

  predicate StatusAccepted(status: string) {
    status == "OK" || status == "ZERO_RESULTS"
  }

  /** `response.data.results || []`. */
  function PageResults(reply: NearbyReply): seq<Place> {
    reply.results.GetOr([])
  }

  /** The places of the pages requested with `tokens`, page after page. */
  function ResultsOf(nearby: Option<string> -> NearbyReply, tokens: seq<Option<string>>): seq<Place> {
    if tokens == [] then []
    else ResultsOf(nearby, tokens[..|tokens| - 1]) + PageResults(nearby(tokens[|tokens| - 1]))
  }

  /**
   * The requests of a pagination run: the first page has no token, every later
   * page carries the token of the page before, which was accepted and had one.
   */
  ghost predicate TokenChain(nearby: Option<string> -> NearbyReply, tokens: seq<Option<string>>)
    decreases |tokens|
  {
    if |tokens| <= 1 then tokens == [None]
    else
      var before := nearby(tokens[|tokens| - 2]);
      && TokenChain(nearby, tokens[..|tokens| - 1])
      && StatusAccepted(before.status)
      && Truthy(before.nextPageToken)
      && tokens[|tokens| - 1] == before.nextPageToken
  }

  /** The page tokens of a pagination run that has made the requests `tokens` so far. */
  function PageTokensFrom(nearby: Option<string> -> NearbyReply, tokens: seq<Option<string>>): (r: seq<Option<string>>)
    requires 1 <= |tokens| <= MaxPages
    ensures |tokens| <= |r| <= MaxPages && r[..|tokens|] == tokens
    decreases MaxPages - |tokens|
  {
    var last := nearby(tokens[|tokens| - 1]);
    if !StatusAccepted(last.status) || !Truthy(last.nextPageToken) || |tokens| == MaxPages then tokens
    else
      var r := PageTokensFrom(nearby, tokens + [last.nextPageToken]);
      assert r[..|tokens|] == (tokens + [last.nextPageToken])[..|tokens|];
      r
  }

  /** The page tokens of a whole pagination run: the first request has none. */
  function PageTokens(nearby: Option<string> -> NearbyReply): (r: seq<Option<string>>)
    ensures 1 <= |r| <= MaxPages && r[0] == None
  {
    PageTokensFrom(nearby, [None])
  }

  /**
   * The page loop: fetches at most `MaxPages` pages, stops after the first
   * page without a next-page token, and fails on the first page whose status is
   * neither OK nor ZERO_RESULTS. `tokens` lists the page token of every request made.
   */
  method FetchPages(nearby: Option<string> -> NearbyReply) returns (r: Result<seq<Place>>, tokens: seq<Option<string>>)
    ensures TokenChain(nearby, tokens) && 1 <= |tokens| <= MaxPages
    ensures tokens == PageTokens(nearby)
    ensures var last := nearby(tokens[|tokens| - 1]);
      if !StatusAccepted(last.status) then r == Err("Places API error: " + last.status)
      else r == Ok(ResultsOf(nearby, tokens)) && (|tokens| == MaxPages || !Truthy(last.nextPageToken))
  {
    var allResults: seq<Place> := [];
    var nextPageToken: Option<string> := None;
    tokens := [];
    var page := 0;
    while page < MaxPages
      invariant 0 <= page <= MaxPages && |tokens| == page
      invariant page == 0 ==> nextPageToken == None
      invariant page > 0 ==> && TokenChain(nearby, tokens)
                             && StatusAccepted(nearby(tokens[page - 1]).status)
                             && nextPageToken == nearby(tokens[page - 1]).nextPageToken
                             && Truthy(nextPageToken)
      invariant allResults == ResultsOf(nearby, tokens)
      invariant page > 0 ==> PageTokensFrom(nearby, tokens) == PageTokens(nearby)
    {
      var request := if Truthy(nextPageToken) then nextPageToken else None;
      var previous := tokens;
      tokens := tokens + [request];
      assert tokens[..page] == previous;
      assert PageTokensFrom(nearby, tokens) == PageTokens(nearby) by {
        if page > 0 {
          assert PageTokensFrom(nearby, previous) == PageTokensFrom(nearby, tokens);
        }
      }
      var reply := nearby(request);
      if !StatusAccepted(reply.status) {
        assert PageTokensFrom(nearby, tokens) == tokens;
        r := Err("Places API error: " + reply.status);
        return;
      }
      allResults := allResults + PageResults(reply);
      nextPageToken := reply.nextPageToken;
      page := page + 1;
      if !Truthy(nextPageToken) {
        assert PageTokensFrom(nearby, tokens) == tokens;
        break;
      }
    }
    assert PageTokensFrom(nearby, tokens) == tokens;
    r := Ok(allResults);
  }

  // ---------------------------------------------------------------------------
  // Competitor selection (the filter / details / sort / slice pipeline)
  // ---------------------------------------------------------------------------

  /** The lower-cased name holds one of the excluded chain brands. */
  predicate IsChain(name: string) {
    ContainsAny(AsciiLower(name), ExcludedChains)
  }

  /** Some pattern of `patterns` occurs in `s` (`patterns.some(p => s.includes(p))`). */
  predicate ContainsAny(s: string, patterns: seq<string>) {
    patterns != [] && (Contains(s, patterns[0]) || ContainsAny(s, patterns[1..]))
  }

  predicate NotChain(p: Place) {
    !IsChain(p.name)
  }

  /** The website from the place's details; a failed lookup is swallowed and gives none. */
  function LookedUpWebsite(apiKey: string, place: Place, details: string -> DetailsReply): Option<string> {
    match GetPlaceDetails(apiKey, place.placeId, details)
    case Ok(d) => d.website
    case Err(_) => None
  }

  /** The competitor record built for one place. */
  function ToCompetitor(apiKey: string, place: Place, details: string -> DetailsReply): (c: Competitor)
    ensures c.placeId == place.placeId && c.name == place.name && c.rating == place.rating && c.location == place.location
    ensures c.reviewCount == place.userRatingsTotal.GetOr(0)
    ensures c.address == (if Truthy(place.vicinity) then place.vicinity.value
                          else if Truthy(place.formattedAddress) then place.formattedAddress.value
                          else "")
    ensures c.website == (if apiKey != "" && details(place.placeId).status == "OK" then details(place.placeId).website else None)
  {
    Competitor(
      place.placeId,
      place.name,
      if Truthy(place.vicinity) then place.vicinity.value
      else if Truthy(place.formattedAddress) then place.formattedAddress.value
      else "",
      LookedUpWebsite(apiKey, place, details),
      place.rating,
      place.userRatingsTotal.GetOr(0),
      place.location)
  }

  predicate HasWebsite(c: Competitor) {
    Truthy(c.website)
  }

  /** Sort key of the descending review-count sort. */
  function ReviewKey(c: Competitor): int {
    -c.reviewCount
  }

  /** The non-chain places in discovery order, each turned into a competitor record. */
  function Built(apiKey: string, places: seq<Place>, details: string -> DetailsReply): (cs: seq<Competitor>)
    ensures forall c :: c in cs ==> exists p :: p in places && NotChain(p) && c == ToCompetitor(apiKey, p, details)
  {
    var kept := Seqs.Filter(places, NotChain);
    var built := seq(|kept|, i requires 0 <= i < |kept| => ToCompetitor(apiKey, kept[i], details));
    assert forall c :: c in built ==> exists p :: p in places && NotChain(p) && c == ToCompetitor(apiKey, p, details) by {
      forall c | c in built
        ensures exists p :: p in places && NotChain(p) && c == ToCompetitor(apiKey, p, details)
      {
        var i :| 0 <= i < |built| && built[i] == c;
        assert kept[i] in kept;
      }
    }
    built
  }

  /** Those records that have a website, still in discovery order. */
  function Candidates(apiKey: string, places: seq<Place>, details: string -> DetailsReply): (cs: seq<Competitor>)
    ensures forall i :: 0 <= i < |cs| ==> HasWebsite(cs[i]) && !IsChain(cs[i].name)
  {
    var built := Built(apiKey, places, details);
    assert forall c :: c in built ==> !IsChain(c.name);
    Seqs.Filter(built, HasWebsite)
  }

  /** Every candidate is the record of a fetched place that is not a chain. */
  lemma CandidateOrigin(apiKey: string, places: seq<Place>, details: string -> DetailsReply, c: Competitor)
    requires c in Candidates(apiKey, places, details)
    ensures exists p :: p in places && NotChain(p) && c == ToCompetitor(apiKey, p, details)
  {
    assert c in Built(apiKey, places, details);
  }

  /**
   * Every place that is not a chain and whose details lookup succeeds with a
   * website is kept among the candidates.
   */
  lemma CandidateKept(apiKey: string, places: seq<Place>, details: string -> DetailsReply, p: Place)
    requires p in places && NotChain(p)
    requires apiKey != "" && details(p.placeId).status == "OK" && Truthy(details(p.placeId).website)
    ensures ToCompetitor(apiKey, p, details) in Candidates(apiKey, places, details)
  {
    var kept := Seqs.Filter(places, NotChain);
    Seqs.FilterKeeps(places, NotChain, p);
    var i :| 0 <= i < |kept| && kept[i] == p;
    var built := Built(apiKey, places, details);
    assert built[i] == ToCompetitor(apiKey, p, details);
    Seqs.FilterKeeps(built, HasWebsite, built[i]);
  }

  /** The candidates sorted by review count, most first, ties in discovery order. */
  function RankedCandidates(apiKey: string, places: seq<Place>, details: string -> DetailsReply): (r: seq<Competitor>)
    ensures forall c :: c in r <==> c in Candidates(apiKey, places, details)
    ensures forall i :: 0 <= i < |r| ==> HasWebsite(r[i]) && !IsChain(r[i].name)
    ensures forall i, j :: 0 <= i < j < |r| ==> r[i].reviewCount >= r[j].reviewCount
  {
    var cands := Candidates(apiKey, places, details);
    var sorted := StableSort.SortBy(cands, ReviewKey);
    assert forall c :: c in sorted <==> c in cands by {
      forall c ensures c in sorted <==> c in cands {
        StableSort.SortByMembers(cands, ReviewKey, c);
      }
    }
    forall i | 0 <= i < |sorted| ensures HasWebsite(sorted[i]) && !IsChain(sorted[i].name) {
      assert sorted[i] in cands;
      var j :| 0 <= j < |cands| && cands[j] == sorted[i];
    }
    assert forall i, j :: 0 <= i < j < |sorted| ==> ReviewKey(sorted[i]) <= ReviewKey(sorted[j]);
    sorted
  }

  /**
   * The competitors `findDentalCompetitors` returns from the fetched places:
   * at most `limit`, each with a website and none a chain, all candidates, and
   * ordered by review count, most first.
   */
  function SelectCompetitors(apiKey: string, places: seq<Place>, details: string -> DetailsReply, limit: nat): (r: seq<Competitor>)
    ensures |r| == Seqs.Min(limit, |Candidates(apiKey, places, details)|)
    ensures forall i :: 0 <= i < |r| ==> HasWebsite(r[i]) && !IsChain(r[i].name)
    ensures forall i, j :: 0 <= i < j < |r| ==> r[i].reviewCount >= r[j].reviewCount
    ensures forall c :: c in r ==> c in Candidates(apiKey, places, details)
  {
    var sorted := RankedCandidates(apiKey, places, details);
    var r := Seqs.Take(sorted, limit);
    assert forall i :: 0 <= i < |r| ==> r[i] == sorted[i];
    r
  }

  /**
   * Stability: among returned competitors with equal review counts, the order is
   * the discovery order, and they are the first such candidates discovered.
   */
  lemma SelectionStable(apiKey: string, places: seq<Place>, details: string -> DetailsReply, limit: nat, count: int)
    ensures var same := StableSort.WithKey(SelectCompetitors(apiKey, places, details, limit), ReviewKey, -count);
            var all := StableSort.WithKey(Candidates(apiKey, places, details), ReviewKey, -count);
            |same| <= |all| && same == all[..|same|]
  {
    SelectionIsSortedPrefix(apiKey, places, details, limit);
    StableSort.SortedPrefixStable(Candidates(apiKey, places, details), ReviewKey, -count, SelectCompetitors(apiKey, places, details, limit));
  }

  /** The competitors returned are a prefix of the candidates sorted by review count. */
  lemma SelectionIsSortedPrefix(apiKey: string, places: seq<Place>, details: string -> DetailsReply, limit: nat)
    ensures var r := SelectCompetitors(apiKey, places, details, limit);
      |r| == Seqs.Min(limit, |Candidates(apiKey, places, details)|)
      && r == StableSort.SortBy(Candidates(apiKey, places, details), ReviewKey)[..|r|]
  {
    assert RankedCandidates(apiKey, places, details) == StableSort.SortBy(Candidates(apiKey, places, details), ReviewKey);
  }

  /** A candidate with a website that the limit cut off has no more reviews than any returned competitor. */
  lemma SelectionKeepsMostReviewed(apiKey: string, places: seq<Place>, details: string -> DetailsReply, limit: nat, c: Competitor)
    requires c in Candidates(apiKey, places, details)
    requires c !in SelectCompetitors(apiKey, places, details, limit)
    ensures forall i :: 0 <= i < |SelectCompetitors(apiKey, places, details, limit)| ==>
              c.reviewCount <= SelectCompetitors(apiKey, places, details, limit)[i].reviewCount
  {
    var sorted := RankedCandidates(apiKey, places, details);
    var r := SelectCompetitors(apiKey, places, details, limit);
    assert c in multiset(sorted);
    var t :| 0 <= t < |sorted| && sorted[t] == c;
    assert r == sorted[..|r|];
    assert t >= |r|;
    assert forall i :: 0 <= i < |r| ==> ReviewKey(sorted[i]) <= ReviewKey(sorted[t]);
  }

  /** Below the limit nothing is cut: every candidate with a website is returned. */
  lemma SelectionUnderLimitKeepsAll(apiKey: string, places: seq<Place>, details: string -> DetailsReply, limit: nat)
    requires |Candidates(apiKey, places, details)| <= limit
    ensures multiset(SelectCompetitors(apiKey, places, details, limit)) == multiset(Candidates(apiKey, places, details))
  {
    var sorted := RankedCandidates(apiKey, places, details);
    assert SelectCompetitors(apiKey, places, details, limit) == sorted;
  }

  /**
   * What `findDentalCompetitors` gives: the missing-key error, the error of the
   * first rejected page, or the selection from every page of the run.
   */
  function DentalCompetitors(apiKey: string, nearby: Option<string> -> NearbyReply, details: string -> DetailsReply, limit: nat): (r: Result<seq<Competitor>>)
    ensures apiKey == "" ==> r == Err(KeyMissing)
    ensures r.Ok? ==> |r.value| <= limit && forall i :: 0 <= i < |r.value| ==> HasWebsite(r.value[i]) && !IsChain(r.value[i].name)
    ensures apiKey != "" ==>
      var tokens := PageTokens(nearby);
      var last := nearby(tokens[|tokens| - 1]);
      var cands := Candidates(apiKey, ResultsOf(nearby, tokens), details);
      && (r.Ok? <==> StatusAccepted(last.status))
      && (r.Err? ==> r.message == "Places API error: " + last.status)
      && (r.Ok? ==> |r.value| == Seqs.Min(limit, |cands|)
                    && r.value == StableSort.SortBy(cands, ReviewKey)[..|r.value|])
  {
    if apiKey == "" then Err(KeyMissing)
    else
      var tokens := PageTokens(nearby);
      var last := nearby(tokens[|tokens| - 1]);
      if !StatusAccepted(last.status) then Err("Places API error: " + last.status)
      else Ok(SelectCompetitors(apiKey, ResultsOf(nearby, tokens), details, limit))
  }

  /**
   * `findDentalCompetitors`: without an API key it fails before any request;
   * otherwise it pages through the nearby search and selects from what came back.
   */
  method FindDentalCompetitors(
    apiKey: string,
    nearby: Option<string> -> NearbyReply,
    details: string -> DetailsReply,
    limit: nat := DefaultLimit)
    returns (r: Result<seq<Competitor>>, tokens: seq<Option<string>>)
    ensures r == DentalCompetitors(apiKey, nearby, details, limit)
    ensures apiKey == "" ==> tokens == []
    ensures apiKey != "" ==> TokenChain(nearby, tokens) && |tokens| <= MaxPages
    ensures apiKey != "" ==>
      var last := nearby(tokens[|tokens| - 1]);
      if !StatusAccepted(last.status) then r == Err("Places API error: " + last.status)
      else r == Ok(SelectCompetitors(apiKey, ResultsOf(nearby, tokens), details, limit))
  {
    if apiKey == "" {
      return Err(KeyMissing), [];
    }
    var pages;
    pages, tokens := FetchPages(nearby);
    match pages
    case Err(e) =>
      r := Err(e);
    case Ok(allResults) =>
      r := Ok(SelectCompetitors(apiKey, allResults, details, limit));
  }
}

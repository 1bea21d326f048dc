/**
 * The provider helpers of the Python backend (backend/src/app.py): its own
 * domain key, geocoding, the single-page competitor search, the practice's
 * review lookup and the per-item DataForSEO loops that put a placeholder in
 * place of a failed item instead of failing the batch.
 *
 * Each HTTP request is a function parameter that gives the provider's reply;
 * a request that raises is a reply of its own. Star ratings are integer
 * tenths of a star.
 */
module FlaskProviders {
  import opened Wrappers
  import opened Text
  import Seqs
  import StableSort
  import GooglePlaces

  // ---------------------------------------------------------------------------
  // Domain key (`extract_domain`)
  // ---------------------------------------------------------------------------

  predicate IsLetter(c: char) { IsUpperLetter(c) || IsLowerLetter(c) }

  predicate IsSchemeChar(c: char) {
    IsLetter(c) || '0' <= c <= '9' || c == '+' || c == '-' || c == '.'
  }

  predicate IsColon(c: char) { c == ':' }

  predicate IsSlash(c: char) { c == '/' }

  /** Characters that end the network location. */
  predicate EndsNetloc(c: char) { c == '/' || c == '?' || c == '#' }

  /** Characters that end the path (the query and the fragment follow). */
  predicate EndsPath(c: char) { c == '?' || c == '#' }

  /** What `urlsplit` leaves after a leading `scheme:`; the text itself when it has no valid scheme. */
  function AfterScheme(t: string): string {
    var scheme := TakeUntil(t, IsColon);
    if 0 < |scheme| < |t| && IsLetter(t[0]) && (forall i :: 0 <= i < |scheme| ==> IsSchemeChar(scheme[i])) then
      t[|scheme| + 1..]
    else t
  }

  datatype UrlParts = UrlParts(netloc: string, path: string)

  /**
   * `urlsplit` after the scheme: the network location after `//` up to the
   * first `/`, `?` or `#`, and the path up to the query or fragment; None
   * where it raises because only one of `[` and `]` occurs in the network
   * location.
   */
  function SplitRest(rest: string): Option<UrlParts> {
    if StartsWith(rest, "//") then
      var netloc := TakeUntil(rest[2..], EndsNetloc);
      if ('[' in netloc) != (']' in netloc) then None
      else Some(UrlParts(netloc, TakeUntil(rest[2 + |netloc|..], EndsPath)))
    else Some(UrlParts("", TakeUntil(rest, EndsPath)))
  }

  function UrlSplit(t: string): Option<UrlParts> {
    SplitRest(AfterScheme(t))
  }

  /** The text handed to the parser: `https://` is added unless it starts with `http`. */
  function ParseTarget(url: string): string {
    if StartsWith(url, "http") then url else "https://" + url
  }

  /**
   * `extract_domain`: None for a missing or empty URL; the URL itself when
   * parsing raises; otherwise the network location (or the first path
   * segment when there is none), port and case kept, with every `www.`
   * removed in one left-to-right pass.
   */
  function ExtractDomain(url: Option<string>): (d: Option<string>)
    ensures d.None? <==> !Truthy(url)
    ensures Truthy(url) && UrlSplit(ParseTarget(url.value)).None? ==> d == url
  {
    if !Truthy(url) then None
    else
      match UrlSplit(ParseTarget(url.value))
      case None => url
      case Some(parts) => Some(KeyOf(parts))
  }

  /** The key of a parsed URL: the network location, or the first path segment when there is none, without `www.`. */
  function KeyOf(parts: UrlParts): string {
    var domain := if parts.netloc != "" then parts.netloc else TakeUntil(parts.path, IsSlash);
    ReplaceAll(domain, "www.", "")
  }

  /** A URL that parses has the key of its parts. */
  lemma KeyOfParsed(url: string, parts: UrlParts)
    requires url != [] && UrlSplit(ParseTarget(url)) == Some(parts)
    ensures ExtractDomain(Some(url)) == Some(KeyOf(parts))
  {
  }

  /** A host `urlsplit` takes whole as the network location. */
  predicate NetlocHost(host: string) {
    host != [] && forall i :: 0 <= i < |host| ==> !EndsNetloc(host[i]) && host[i] != '[' && host[i] != ']'
  }

  /** A host that is its own key: nothing ends it early and it holds no `www.`. */
  predicate PlainHost(host: string) {
    NetlocHost(host) && !Contains(host, "www.")
  }

  /** The prefixes `http://` and `https://`. */
  predicate WebPrefix(prefix: string) {
    prefix == "http://" || prefix == "https://"
  }

  /** After `http:` or `https:` the parser sees the rest, starting with `//`. */
  lemma WebSchemeSplit(prefix: string, rest: string)
    requires WebPrefix(prefix)
    ensures AfterScheme(prefix + rest) == "//" + rest
  {
    var scheme := prefix[..|prefix| - 3];
    assert prefix + rest == scheme + [':'] + ("//" + rest);
    TakeUntilStopsAt(scheme, ':', "//" + rest, IsColon);
  }

  /** After `//`, the network location is the host up to the first `/`, `?` or `#`. */
  lemma NetlocOfRest(host: string, tail: string)
    requires NetlocHost(host)
    requires tail == [] || EndsNetloc(tail[0])
    ensures SplitRest("//" + host + tail) == Some(UrlParts(host, TakeUntil(tail, EndsPath)))
  {
    var rest := "//" + host + tail;
    assert StartsWith(rest, "//");
    assert rest[2..] == host + tail;
    TakeUntilPrefix(host, tail, EndsNetloc);
    assert '[' !in host && ']' !in host;
    assert rest[2 + |host|..] == tail;
  }

  /** The key of `http(s)://host…` is the host with its `www.` occurrences removed. */
  lemma DomainOfNetloc(prefix: string, host: string, tail: string)
    requires WebPrefix(prefix)
    requires NetlocHost(host)
    requires tail == [] || EndsNetloc(tail[0])
    ensures ExtractDomain(Some(prefix + host + tail)) == Some(ReplaceAll(host, "www.", ""))
  {
    var url := prefix + host + tail;
    assert url[..4] == "http";
    assert ParseTarget(url) == url;
    assert url == prefix + (host + tail);
    WebSchemeSplit(prefix, host + tail);
    assert "//" + (host + tail) == "//" + host + tail;
    NetlocOfRest(host, tail);
    KeyOfParsed(url, UrlParts(host, TakeUntil(tail, EndsPath)));
  }

  /** The key of `http(s)://host…` is the host itself, port and case included. */
  lemma DomainOfUrl(prefix: string, host: string, tail: string)
    requires WebPrefix(prefix)
    requires PlainHost(host)
    requires tail == [] || EndsNetloc(tail[0])
    ensures ExtractDomain(Some(prefix + host + tail)) == Some(host)
  {
    DomainOfNetloc(prefix, host, tail);
    ReplaceAllAbsent(host, "www.", "");
  }

  /** A bare host, with no scheme, is its own key. */
  lemma BareHostKey(host: string)
    requires PlainHost(host) && !StartsWith(host, "http")
    ensures ExtractDomain(Some(host)) == Some(host)
  {
    assert ParseTarget(host) == "https://" + host;
    NetlocOfBare(host);
    KeyOfParsed(host, UrlParts(host, []));
    ReplaceAllAbsent(host, "www.", "");
  }

  /** Behind `https://`, a host alone is the network location, with an empty path. */
  lemma NetlocOfBare(host: string)
    requires NetlocHost(host)
    ensures UrlSplit("https://" + host) == Some(UrlParts(host, []))
  {
    WebSchemeSplit("https://", host);
    NetlocOfRest(host, []);
    assert "//" + host + [] == "//" + host;
  }

  /** `https://www.foo.com/x` has the same key as `https://foo.com/x`: the host without `www.`. */
  lemma WwwHostKey(prefix: string, host: string, path: string)
    requires WebPrefix(prefix)
    requires PlainHost(host)
    requires path == [] || EndsNetloc(path[0])
    ensures ExtractDomain(Some(prefix + ("www." + host) + path)) == Some(host)
  {
    WwwNetloc(host);
    DomainOfNetloc(prefix, "www." + host, path);
    WwwRemoved(host);
  }

  lemma WwwNetloc(host: string)
    requires NetlocHost(host)
    ensures NetlocHost("www." + host)
  {
    var www := "www." + host;
    assert forall i :: 4 <= i < |www| ==> www[i] == host[i - 4];
  }

  lemma WwwRemoved(host: string)
    requires !Contains(host, "www.")
    ensures ReplaceAll("www." + host, "www.", "") == host
  {
    var www := "www." + host;
    assert StartsWith(www, "www.") && www[4..] == host;
    ReplaceAllAbsent(host, "www.", "");
  }

  /** One pass removes `www.` from `wwwww.w.`, and the characters around it form a new `www.`. */
  lemma OnePassExample()
    ensures ReplaceAll("wwwww.w.", "www.", "") == "www."
  {
    var s := "wwwww.w.";
    assert s[3] == 'w' && !StartsWith(s, "www.");
    assert s[1..] == "wwww.w.";
    assert s[1..][3] == 'w' && !StartsWith(s[1..], "www.");
    assert s[1..][1..] == "www.w.";
    assert StartsWith(s[1..][1..], "www.");
    assert s[1..][1..][4..] == "w.";
    assert ReplaceAll("w.", "www.", "") == "w.";
  }

  /** A key may still hold `www.`: the key of `wwwww.w.` is `www.`. */
  lemma OnePassMayLeaveWww()
    ensures ExtractDomain(Some("wwwww.w.")) == Some("www.")
  {
    var host := "wwwww.w.";
    assert host[3] == 'w' && !StartsWith(host, "http");
    assert NetlocHost(host);
    assert ParseTarget(host) == "https://" + host;
    NetlocOfBare(host);
    KeyOfParsed(host, UrlParts(host, []));
    OnePassExample();
  }

  // ---------------------------------------------------------------------------
  // Geocoding and the competitor search
  // ---------------------------------------------------------------------------

  /**
   * `geocode_address`: fails unless the status is OK; with an OK status a
   * missing or empty result list raises the lookup's own error; otherwise
   * the first result.
   */
  function GeocodeAddress(address: string, geocoder: string -> GooglePlaces.GeocodeReply): (r: Result<GooglePlaces.GeocodingResult>)
    ensures var reply := geocoder(address);
      && (r.Ok? <==> reply.status == "OK" && reply.results.Some? && reply.results.value != [])
      && (reply.status != "OK" ==> r == Err("Geocoding failed: " + reply.status))
      && (r.Ok? ==> var first := reply.results.value[0];
                    r.value == GooglePlaces.GeocodingResult(first.location.lat, first.location.lng, first.formattedAddress))
  {
    var reply := geocoder(address);
    if reply.status != "OK" then Err("Geocoding failed: " + reply.status)
    else if reply.results.None? then Err("'results'")
    else if reply.results.value == [] then Err("list index out of range")
    else
      var first := reply.results.value[0];
      Ok(GooglePlaces.GeocodingResult(first.location.lat, first.location.lng, first.formattedAddress))
  }

  /** A search or lookup result as the Python client reads it. */
  datatype PyPlace = PyPlace(
    placeId: string,
    name: string,
    vicinity: Option<string>,
    rating: Option<int>,
    userRatingsTotal: Option<int>)

  /** A nearby-search reply: status and the optional result list. */
  datatype PlacesPage = PlacesPage(status: string, results: Option<seq<PyPlace>>)

  /** A competitor as the search or the manual list provides it. */
  datatype Candidate = Candidate(
    name: Option<string>,
    address: string,
    website: string,
    domain: Option<string>,
    rating: Option<int>,
    reviewCount: int)

  /** Only the first fifteen search results are looked up. */
  const CandidatePool: nat := 15

  /** At most five competitors are kept. */
  const CompetitorCount: nat := 5

  /** The search keyword of a practice type; unknown types search for dentists. */
  function SearchKeyword(practiceType: string): string {
    if practiceType == "pediatric" then "pediatric dentist"
    else if practiceType == "oral_surgery" then "oral surgeon"
    else if practiceType == "periodontist" || practiceType == "orthodontist" || practiceType == "prosthodontist" then practiceType
    else "dentist"
  }

  /** The record of a place whose website lookup gave `website`. */
  function ToCandidate(place: PyPlace, website: string): Candidate {
    Candidate(Some(place.name), place.vicinity.GetOr(""), website, ExtractDomain(Some(website)), place.rating, place.userRatingsTotal.GetOr(0))
  }

  /** The website lookup of `p` gives a non-empty website. */
  predicate HasWebsite(p: PyPlace, website: string -> Option<string>) {
    Truthy(website(p.placeId))
  }

  /** The record of a place with a website. */
  function CandidateOf(p: PyPlace, website: string -> Option<string>): Candidate
    requires HasWebsite(p, website)
  {
    ToCandidate(p, website(p.placeId).value)
  }

  /** The places whose website lookup gives a non-empty website, as records, in search order. */
  function CandidatesFrom(places: seq<PyPlace>, website: string -> Option<string>): (cs: seq<Candidate>)
    ensures |cs| <= |places|
    ensures forall i :: 0 <= i < |cs| ==> cs[i].website != "" && cs[i].domain.Some?
  {
    if places == [] then []
    else
      var p := places[|places| - 1];
      var w := website(p.placeId);
      CandidatesFrom(places[..|places| - 1], website) + (if Truthy(w) then [ToCandidate(p, w.value)] else [])
  }

  /** Every record comes from a place that has a website. */
  lemma {:induction false} CandidateFound(places: seq<PyPlace>, website: string -> Option<string>, c: Candidate) returns (i: nat)
    requires c in CandidatesFrom(places, website)
    ensures i < |places| && HasWebsite(places[i], website) && c == CandidateOf(places[i], website)
    decreases |places|
  {
    var init := places[..|places| - 1];
    if c in CandidatesFrom(init, website) {
      i := CandidateFound(init, website, c);
      assert init[i] == places[i];
    } else {
      i := |places| - 1;
    }
  }

  /** Every place that has a website gives a record. */
  lemma {:induction false} CandidateKept(places: seq<PyPlace>, website: string -> Option<string>, i: nat)
    requires i < |places| && HasWebsite(places[i], website)
    ensures CandidateOf(places[i], website) in CandidatesFrom(places, website)
    decreases |places|
  {
    var init := places[..|places| - 1];
    if i < |places| - 1 {
      assert init[i] == places[i];
      CandidateKept(init, website, i);
    }
  }

  function ReviewKey(c: Candidate): int {
    -c.reviewCount
  }

  /**
   * The candidates sorted by review count, most first, ties in search order,
   * cut to five: all of them when there are five or fewer.
   */
  function SelectCompetitors(candidates: seq<Candidate>): (r: seq<Candidate>)
    ensures |r| == Seqs.Min(CompetitorCount, |candidates|)
    ensures forall i, j :: 0 <= i < j < |r| ==> r[i].reviewCount >= r[j].reviewCount
    ensures forall c :: c in r ==> c in candidates
    ensures |candidates| <= CompetitorCount ==> multiset(r) == multiset(candidates)
  {
    var sorted := StableSort.SortBy(candidates, ReviewKey);
    var r := Seqs.Take(sorted, CompetitorCount);
    assert forall i :: 0 <= i < |r| ==> r[i] == sorted[i];
    forall c | c in r ensures c in candidates {
      StableSort.SortByMembers(candidates, ReviewKey, c);
    }
    assert |candidates| <= CompetitorCount ==> r == sorted;
    r
  }

  /** The search results that are looked up: the first fifteen. */
  function Pool(page: PlacesPage): (pool: seq<PyPlace>)
    ensures |pool| <= CandidatePool
  {
    Seqs.Take(page.results.GetOr([]), CandidatePool)
  }

  /**
   * What `find_dental_competitors` gives for a search reply: an error unless
   * the status is OK or ZERO_RESULTS; otherwise five (or all, if fewer) of
   * the first fifteen results that have a website, most reviewed first.
   */
  function DentalCompetitors(page: PlacesPage, website: string -> Option<string>): (r: Result<seq<Candidate>>)
    ensures r.Err? <==> page.status != "OK" && page.status != "ZERO_RESULTS"
    ensures r.Err? ==> r.message == "Places API error: " + page.status
    ensures r.Ok? ==>
      && |r.value| == Seqs.Min(CompetitorCount, |CandidatesFrom(Pool(page), website)|)
      && (forall i :: 0 <= i < |r.value| ==> r.value[i].website != "" && r.value[i].domain.Some?)
      && (forall i, j :: 0 <= i < j < |r.value| ==> r.value[i].reviewCount >= r.value[j].reviewCount)
      && (forall c :: c in r.value ==> c in CandidatesFrom(Pool(page), website))
      && (|CandidatesFrom(Pool(page), website)| <= CompetitorCount ==>
            multiset(r.value) == multiset(CandidatesFrom(Pool(page), website)))
  {
    if page.status != "OK" && page.status != "ZERO_RESULTS" then Err("Places API error: " + page.status)
    else
      var pool := Pool(page);
      var cs := CandidatesFrom(pool, website);
      var r := SelectCompetitors(cs);
      assert forall c :: c in r ==> c.website != "" && c.domain.Some? by {
        forall c | c in r ensures c.website != "" && c.domain.Some? {
          assert c in cs;
        }
      }
      Ok(r)
  }

  /**
   * `find_dental_competitors`: one nearby search for the practice type's
   * keyword, a website lookup for each of the first fifteen results, and the
   * five most-reviewed places that have a website.
   */
  method FindDentalCompetitors(
    lat: real, lng: real, practiceType: string,
    nearby: (real, real, string) -> PlacesPage, website: string -> Option<string>)
    returns (r: Result<seq<Candidate>>)
    ensures r == DentalCompetitors(nearby(lat, lng, SearchKeyword(practiceType)), website)
  {
    var page := nearby(lat, lng, SearchKeyword(practiceType));
    if page.status != "OK" && page.status != "ZERO_RESULTS" {
      return Err("Places API error: " + page.status);
    }
    var places := Pool(page);
    var competitors: seq<Candidate> := [];
    var i := 0;
    while i < |places|
      invariant 0 <= i <= |places|
      invariant competitors == CandidatesFrom(places[..i], website)
    {
      var w := website(places[i].placeId);
      if Truthy(w) {
        competitors := competitors + [ToCandidate(places[i], w.value)];
      }
      assert places[..i + 1][..i] == places[..i];
      i := i + 1;
    }
    assert places[..i] == places;
    r := Ok(SelectCompetitors(competitors));
  }

  /**
   * Only the first fifteen results count: every competitor is one of them,
   * with the website its lookup gave.
   */
  lemma CompetitorFromPool(page: PlacesPage, website: string -> Option<string>, c: Candidate) returns (i: nat)
    requires DentalCompetitors(page, website).Ok? && c in DentalCompetitors(page, website).value
    ensures i < CandidatePool && i < |page.results.GetOr([])|
    ensures HasWebsite(page.results.GetOr([])[i], website) && c == CandidateOf(page.results.GetOr([])[i], website)
  {
    i := CandidateFound(Pool(page), website, c);
  }

  /** With five or fewer of the first fifteen results having a website, every one of them is a competitor. */
  lemma FewCandidatesAllKept(page: PlacesPage, website: string -> Option<string>, i: nat)
    requires DentalCompetitors(page, website).Ok?
    requires |CandidatesFrom(Pool(page), website)| <= CompetitorCount
    requires i < |Pool(page)| && HasWebsite(Pool(page)[i], website)
    ensures CandidateOf(Pool(page)[i], website) in DentalCompetitors(page, website).value
  {
    var c := CandidateOf(Pool(page)[i], website);
    CandidateKept(Pool(page), website, i);
    assert c in multiset(CandidatesFrom(Pool(page), website));
    assert c in multiset(DentalCompetitors(page, website).value);
  }

  /** Stability: competitors with equal review counts keep their search order, and are the first such found. */
  lemma SelectionStable(candidates: seq<Candidate>, count: int)
    ensures var same := StableSort.WithKey(SelectCompetitors(candidates), ReviewKey, -count);
            var all := StableSort.WithKey(candidates, ReviewKey, -count);
            |same| <= |all| && same == all[..|same|]
  {
    var r := SelectCompetitors(candidates);
    assert r == StableSort.SortBy(candidates, ReviewKey)[..|r|];
    StableSort.SortedTakeStable(candidates, ReviewKey, -count, |r|);
  }

  /** A candidate the cut to five dropped has no more reviews than any kept competitor. */
  lemma SelectionKeepsMostReviewed(candidates: seq<Candidate>, c: Candidate)
    requires c in candidates && c !in SelectCompetitors(candidates)
    ensures forall i :: 0 <= i < |SelectCompetitors(candidates)| ==> c.reviewCount <= SelectCompetitors(candidates)[i].reviewCount
  {
    var sorted := StableSort.SortBy(candidates, ReviewKey);
    var r := SelectCompetitors(candidates);
    StableSort.SortByMembers(candidates, ReviewKey, c);
    var t :| 0 <= t < |sorted| && sorted[t] == c;
    assert r == sorted[..|r|];
    assert t >= |r|;
    assert forall i :: 0 <= i < |r| ==> ReviewKey(sorted[i]) <= ReviewKey(sorted[t]);
  }

  // ---------------------------------------------------------------------------
  // The practice's own reviews (`lookup_practice_reviews`)
  // ---------------------------------------------------------------------------

  /** A text-search result: every field the lookup reads may be missing. */
  datatype FoundPlace = FoundPlace(name: Option<string>, rating: Option<int>, userRatingsTotal: Option<int>)

  /** A text-search reply; the request may raise. */
  datatype TextSearchReply = SearchRaised | TextSearch(status: string, results: Option<seq<FoundPlace>>)

  datatype PracticeReviews = PracticeReviews(name: string, rating: Option<int>, reviewCount: int)

  /** The search found the practice: status OK and a non-empty result list. */
  predicate Found(reply: TextSearchReply) {
    reply.TextSearch? && reply.status == "OK" && reply.results.Some? && reply.results.value != []
  }

  /**
   * `lookup_practice_reviews`: when the text search for name and address
   * finds the practice, the name, rating and review count of its first
   * (most relevant) result, each defaulting to the given name, no rating and
   * no reviews; otherwise the given name, no rating and no reviews. It never
   * raises.
   */
  function LookupPracticeReviews(practiceName: string, address: string, textSearch: string -> TextSearchReply): (r: PracticeReviews)
    ensures var reply := textSearch(practiceName + " " + address);
      && (Found(reply) ==>
            var first := reply.results.value[0];
            && r.rating == first.rating
            && (first.userRatingsTotal.Some? ==> r.reviewCount == first.userRatingsTotal.value)
            && (first.userRatingsTotal.None? ==> r.reviewCount == 0)
            && (first.name.Some? ==> r.name == first.name.value)
            && (first.name.None? ==> r.name == practiceName))
      && (!Found(reply) ==> r.name == practiceName && r.rating.None? && r.reviewCount == 0)
  {
    var reply := textSearch(practiceName + " " + address);
    if Found(reply) then
      var first := reply.results.value[0];
      PracticeReviews(first.name.GetOr(practiceName), first.rating, first.userRatingsTotal.GetOr(0))
    else PracticeReviews(practiceName, None, 0)
  }

  // ---------------------------------------------------------------------------
  // DataForSEO, one request per item
  // ---------------------------------------------------------------------------

  /**
   * The first task of a DataForSEO answer: the request (or reading its
   * answer) raised, or the task's status code and the first entry of its
   * `result` list when that list is non-empty.
   */
  datatype TaskReply<T> = Raised(message: string) | Task(statusCode: Option<int>, first: Option<T>)

  /** `status_code == 20000 and result`: the task succeeded and has a result. */
  predicate Succeeded<T>(reply: TaskReply<T>) {
    reply.Task? && reply.statusCode == Some(20000) && reply.first.Some?
  }

  /** A search-result item (missing fields are None). */
  datatype SerpItem = SerpItem(
    itemType: Option<string>,
    rankAbsolute: Option<int>,
    domain: Option<string>,
    title: Option<string>,
    url: Option<string>)

  datatype Ranking = Ranking(position: Option<int>, domain: string, title: string)

  datatype KeywordResult = KeywordResult(keyword: string, rankings: seq<Ranking>)

  predicate IsOrganic(item: SerpItem) {
    item.itemType == Some("organic")
  }

  function ToRanking(item: SerpItem): Ranking {
    Ranking(item.rankAbsolute, ReplaceAll(item.domain.GetOr(""), "www.", ""), item.title.GetOr(""))
  }

  /** The organic items, in order, as rankings. */
  function OrganicRankings(items: seq<SerpItem>): (rs: seq<Ranking>)
    ensures |rs| <= |items|
  {
    if items == [] then []
    else
      var last := items[|items| - 1];
      OrganicRankings(items[..|items| - 1]) + (if IsOrganic(last) then [ToRanking(last)] else [])
  }

  /** The rankings are exactly the organic items, in order, each converted. */
  lemma {:induction false} OrganicRankingsAreOrganicItems(items: seq<SerpItem>)
    ensures var organic := Seqs.Filter(items, IsOrganic);
      |OrganicRankings(items)| == |organic|
      && forall i :: 0 <= i < |organic| ==> OrganicRankings(items)[i] == ToRanking(organic[i])
  {
    if items != [] {
      var init := items[..|items| - 1];
      var last := items[|items| - 1];
      OrganicRankingsAreOrganicItems(init);
      assert items == init + [last];
      Seqs.FilterAppend(init, [last], IsOrganic);
      assert Seqs.Filter([last], IsOrganic) == if IsOrganic(last) then [last] else [] by {
        assert [last][1..] == [];
      }
    }
  }

  /** The rankings one keyword's reply yields: none unless the task succeeded. */
  function RankingsOf(reply: TaskReply<seq<SerpItem>>): seq<Ranking> {
    if Succeeded(reply) then OrganicRankings(reply.first.value) else []
  }

  /** What `get_keyword_rankings` returns: one result per keyword, in keyword order. */
  function KeywordRankings(keywords: seq<string>, serp: string -> TaskReply<seq<SerpItem>>): (rs: seq<KeywordResult>)
    ensures |rs| == |keywords|
    ensures forall i :: 0 <= i < |keywords| ==> rs[i].keyword == keywords[i]
    ensures forall i :: 0 <= i < |keywords| && !Succeeded(serp(keywords[i])) ==> rs[i].rankings == []
    ensures forall i :: 0 <= i < |keywords| && Succeeded(serp(keywords[i])) ==>
      rs[i].rankings == OrganicRankings(serp(keywords[i]).first.value)
  {
    seq(|keywords|, i requires 0 <= i < |keywords| => KeywordResult(keywords[i], RankingsOf(serp(keywords[i]))))
  }

  /**
   * `get_keyword_rankings`: one search per keyword; the organic items of a
   * successful task, each domain without `www.`; a failed or raising request
   * gives an empty list and the loop goes on.
   */
  method GetKeywordRankings(keywords: seq<string>, serp: string -> TaskReply<seq<SerpItem>>) returns (results: seq<KeywordResult>)
    ensures results == KeywordRankings(keywords, serp)
  {
    results := [];
    var k := 0;
    while k < |keywords|
      invariant 0 <= k <= |keywords|
      invariant |results| == k
      invariant forall i :: 0 <= i < k ==> results[i] == KeywordResult(keywords[i], RankingsOf(serp(keywords[i])))
    {
      var reply := serp(keywords[k]);
      var rankings: seq<Ranking> := [];
      if Succeeded(reply) {
        var items := reply.first.value;
        var j := 0;
        while j < |items|
          invariant 0 <= j <= |items|
          invariant rankings == OrganicRankings(items[..j])
        {
          if IsOrganic(items[j]) {
            rankings := rankings + [ToRanking(items[j])];
          }
          assert items[..j + 1][..j] == items[..j];
          j := j + 1;
        }
        assert items[..j] == items;
      }
      results := results + [KeywordResult(keywords[k], rankings)];
      k := k + 1;
    }
  }

  /** The figures a backlinks task reports; missing ones are None. */
  datatype BacklinksFigures = BacklinksFigures(rank: Option<int>, backlinks: Option<int>, referringDomains: Option<int>)

  /** A backlinks record; the placeholder `run_analysis` uses has no domain. */
  datatype Backlinks = Backlinks(domain: Option<string>, rank: int, backlinks: int, referringDomains: int)

  /** The record of one domain: the reported figures (missing ones 0), or zeros when the task failed. */
  function BacklinksOf(domain: string, reply: TaskReply<BacklinksFigures>): (b: Backlinks)
    ensures b.domain == Some(domain)
    ensures !Succeeded(reply) ==> b == Backlinks(Some(domain), 0, 0, 0)
    ensures Succeeded(reply) ==> var f := reply.first.value;
      b.rank == f.rank.GetOr(0) && b.backlinks == f.backlinks.GetOr(0) && b.referringDomains == f.referringDomains.GetOr(0)
  {
    if Succeeded(reply) then
      var f := reply.first.value;
      Backlinks(Some(domain), f.rank.GetOr(0), f.backlinks.GetOr(0), f.referringDomains.GetOr(0))
    else Backlinks(Some(domain), 0, 0, 0)
  }

  /** What `get_backlinks_summary` returns: one record per domain, in order, each naming its domain. */
  function BacklinksSummary(domains: seq<string>, backlinks: string -> TaskReply<BacklinksFigures>): (bs: seq<Backlinks>)
    ensures |bs| == |domains|
    ensures forall i :: 0 <= i < |domains| ==> bs[i] == BacklinksOf(domains[i], backlinks(domains[i]))
  {
    seq(|domains|, i requires 0 <= i < |domains| => BacklinksOf(domains[i], backlinks(domains[i])))
  }

  /** `get_backlinks_summary`: one request per domain; a failed or raising request gives zeros. */
  method GetBacklinksSummary(domains: seq<string>, backlinks: string -> TaskReply<BacklinksFigures>) returns (results: seq<Backlinks>)
    ensures results == BacklinksSummary(domains, backlinks)
    ensures forall i :: 0 <= i < |domains| ==> results[i].domain == Some(domains[i])
  {
    results := [];
    var k := 0;
    while k < |domains|
      invariant 0 <= k <= |domains|
      invariant |results| == k
      invariant forall i :: 0 <= i < k ==> results[i] == BacklinksOf(domains[i], backlinks(domains[i]))
    {
      var reply := backlinks(domains[k]);
      if Succeeded(reply) {
        var f := reply.first.value;
        results := results + [Backlinks(Some(domains[k]), f.rank.GetOr(0), f.backlinks.GetOr(0), f.referringDomains.GetOr(0))];
      } else {
        results := results + [Backlinks(Some(domains[k]), 0, 0, 0)];
      }
      k := k + 1;
    }
  }

  /** An on-page item; missing fields are None. */
  datatype OnPageItem = OnPageItem(onpageScore: Option<real>, title: Option<string>, statusCode: Option<int>)

  /** One on-page task: its status code and the items of its first result, when it has a result. */
  datatype OnPageTask = OnPageTask(statusCode: Option<int>, items: Option<seq<OnPageItem>>)

  /** The on-page batch answer: the request raised, or its tasks. */
  datatype OnPageReply = OnPageRaised(message: string) | OnPageTasks(tasks: seq<OnPageTask>)

  /** An on-page record; the placeholder `run_analysis` uses has no URL and no status code. */
  datatype OnPage = OnPage(url: Option<string>, score: real, title: string, statusCode: Option<int>)

  /** The record for `url` from its task: the first item's figures, or zeros when there is none. */
  function OnPageOf(url: string, task: OnPageTask): (p: OnPage)
    ensures p.url == Some(url) && p.statusCode.Some?
    ensures !(task.statusCode == Some(20000) && task.items.Some? && task.items.value != []) ==> p == OnPage(Some(url), 0.0, "", Some(0))
    ensures task.statusCode == Some(20000) && task.items.Some? && task.items.value != [] ==>
      var item := task.items.value[0];
      p.score == item.onpageScore.GetOr(0.0) && p.title == item.title.GetOr("") && p.statusCode == Some(item.statusCode.GetOr(0))
  {
    if task.statusCode == Some(20000) && task.items.Some? && task.items.value != [] then
      var item := task.items.value[0];
      OnPage(Some(url), item.onpageScore.GetOr(0.0), item.title.GetOr(""), Some(item.statusCode.GetOr(0)))
    else OnPage(Some(url), 0.0, "", Some(0))
  }

  /**
   * What `get_onpage_analysis` gives: the request's error, the index error
   * when there are more tasks than URLs, or one record per task.
   */
  function OnPageAnalysis(urls: seq<string>, reply: OnPageReply): (r: Result<seq<OnPage>>)
    ensures reply.OnPageRaised? ==> r == Err(reply.message)
    ensures reply.OnPageTasks? ==> (r.Ok? <==> |reply.tasks| <= |urls|)
    ensures reply.OnPageTasks? && r.Err? ==> r.message == "list index out of range"
    ensures r.Ok? ==> |r.value| == |reply.tasks| && forall i :: 0 <= i < |r.value| ==> r.value[i] == OnPageOf(urls[i], reply.tasks[i])
  {
    match reply
    case OnPageRaised(message) => Err(message)
    case OnPageTasks(tasks) =>
      if |tasks| > |urls| then Err("list index out of range")
      else Ok(seq(|tasks|, i requires 0 <= i < |tasks| => OnPageOf(urls[i], tasks[i])))
  }

  /** `get_onpage_analysis`: one batch request, then one record per returned task, in task order. */
  method GetOnPageAnalysis(urls: seq<string>, onPage: seq<string> -> OnPageReply) returns (r: Result<seq<OnPage>>)
    ensures r == OnPageAnalysis(urls, onPage(urls))
  {
    var reply := onPage(urls);
    if reply.OnPageRaised? {
      return Err(reply.message);
    }
    var tasks := reply.tasks;
    var results: seq<OnPage> := [];
    var i := 0;
    while i < |tasks|
      invariant 0 <= i <= |tasks| && i <= |urls|
      invariant |results| == i
      invariant forall k :: 0 <= k < i ==> results[k] == OnPageOf(urls[k], tasks[k])
    {
      if i >= |urls| {
        return Err("list index out of range");
      }
      results := results + [OnPageOf(urls[i], tasks[i])];
      i := i + 1;
    }
    assert |tasks| <= |urls|;
    assert results == OnPageAnalysis(urls, reply).value;
    r := Ok(results);
  }

  // ---------------------------------------------------------------------------
  // Directory listings (`check_directory_listings`)
  // ---------------------------------------------------------------------------

  datatype Importance = CriticalDirectory | HighDirectory | MediumDirectory | LowDirectory

  datatype Directory = Directory(name: string, domain: string, importance: Importance)

  /** The directories checked, in order. */
  const DentalDirectories: seq<Directory> := [
    Directory("Healthgrades", "healthgrades.com", CriticalDirectory),
    Directory("Zocdoc", "zocdoc.com", CriticalDirectory),
    Directory("Yelp", "yelp.com", CriticalDirectory),
    Directory("Facebook", "facebook.com", CriticalDirectory),
    Directory("Vitals", "vitals.com", HighDirectory),
    Directory("WebMD", "doctor.webmd.com", HighDirectory),
    Directory("Yellow Pages", "yellowpages.com", MediumDirectory),
    Directory("1-800-Dentist", "1800dentist.com", MediumDirectory),
    Directory("Dentistry.com", "dentistry.com", MediumDirectory),
    Directory("Smile Guide", "smileguide.com", LowDirectory)
  ]

  datatype Listing = Listing(
    directory: string,
    domain: string,
    importance: Importance,
    found: bool,
    url: Option<string>,
    title: Option<string>,
    error: Option<string>)

  /** The search for the practice's name on one directory's site. */
  function SiteQuery(practiceName: string, d: Directory): string {
    "\"" + practiceName + "\" site:" + d.domain
  }

  /** The first organic item, if any. */
  function FirstOrganic(items: seq<SerpItem>): (r: Option<SerpItem>)
    ensures r.None? <==> forall i :: 0 <= i < |items| ==> !IsOrganic(items[i])
    ensures r.Some? ==> exists i :: 0 <= i < |items| && items[i] == r.value && IsOrganic(r.value)
                                    && (forall j :: 0 <= j < i ==> !IsOrganic(items[j]))
  {
    if items == [] then None
    else if IsOrganic(items[0]) then Some(items[0])
    else
      var r := FirstOrganic(items[1..]);
      assert forall j :: 1 <= j < |items| ==> items[j] == items[1..][j - 1];
      if r.Some? then
        var i :| 0 <= i < |items[1..]| && items[1..][i] == r.value && IsOrganic(r.value) && forall j :: 0 <= j < i ==> !IsOrganic(items[1..][j]);
        assert items[i + 1] == r.value;
        r
      else r
  }

  /** One directory's listing: found when the search's first result list holds an organic item. */
  function ListingOf(d: Directory, reply: TaskReply<seq<SerpItem>>): (l: Listing)
    ensures l.directory == d.name && l.domain == d.domain && l.importance == d.importance
    ensures l.found <==> Succeeded(reply) && FirstOrganic(reply.first.value).Some?
    ensures l.error.Some? <==> reply.Raised?
    ensures reply.Raised? ==> l.error == Some(reply.message)
    ensures l.found ==> var item := FirstOrganic(reply.first.value).value;
      l.url == Some(item.url.GetOr("")) && l.title == Some(item.title.GetOr(""))
    ensures !l.found ==> l.url.None? && l.title.None?
  {
    match reply
    case Raised(message) => Listing(d.name, d.domain, d.importance, false, None, None, Some(message))
    case Task(_, _) =>
      if Succeeded(reply) && FirstOrganic(reply.first.value).Some? then
        var item := FirstOrganic(reply.first.value).value;
        Listing(d.name, d.domain, d.importance, true, Some(item.url.GetOr("")), Some(item.title.GetOr("")), None)
      else Listing(d.name, d.domain, d.importance, false, None, None, None)
  }

  /** What `check_directory_listings` returns: one listing per directory, in directory order. */
  function DirectoryListings(practiceName: string, siteSearch: string -> TaskReply<seq<SerpItem>>): (ls: seq<Listing>)
    ensures |ls| == |DentalDirectories|
    ensures forall i :: 0 <= i < |ls| ==>
      ls[i].directory == DentalDirectories[i].name && ls[i].importance == DentalDirectories[i].importance
    ensures forall i :: 0 <= i < |ls| ==>
      ls[i] == ListingOf(DentalDirectories[i], siteSearch(SiteQuery(practiceName, DentalDirectories[i])))
  {
    var ls := seq(|DentalDirectories|, i requires 0 <= i < |DentalDirectories| =>
      ListingOf(DentalDirectories[i], siteSearch(SiteQuery(practiceName, DentalDirectories[i]))));
    assert forall i :: 0 <= i < |ls| ==> ls[i] == ListingOf(DentalDirectories[i], siteSearch(SiteQuery(practiceName, DentalDirectories[i])));
    ls
  }

  /**
   * `check_directory_listings`: one site search per directory; the first
   * organic item is the listing; a raising request is recorded as not found
   * with its error.
   */
  method CheckDirectoryListings(practiceName: string, siteSearch: string -> TaskReply<seq<SerpItem>>) returns (listings: seq<Listing>)
    ensures listings == DirectoryListings(practiceName, siteSearch)
  {
    listings := [];
    var k := 0;
    while k < |DentalDirectories|
      invariant 0 <= k <= |DentalDirectories|
      invariant |listings| == k
      invariant forall i :: 0 <= i < k ==>
        listings[i] == ListingOf(DentalDirectories[i], siteSearch(SiteQuery(practiceName, DentalDirectories[i])))
    {
      var d := DentalDirectories[k];
      var reply := siteSearch(SiteQuery(practiceName, d));
      if reply.Raised? {
        listings := listings + [Listing(d.name, d.domain, d.importance, false, None, None, Some(reply.message))];
      } else {
        var found := false;
        var url: Option<string> := None;
        var title: Option<string> := None;
        if Succeeded(reply) {
          var items := reply.first.value;
          var j := 0;
          while j < |items|
            invariant 0 <= j <= |items|
            invariant forall t :: 0 <= t < j ==> !IsOrganic(items[t])
            invariant !found
          {
            if IsOrganic(items[j]) {
              found := true;
              url := Some(items[j].url.GetOr(""));
              title := Some(items[j].title.GetOr(""));
              assert FirstOrganic(items[j..]) == Some(items[j]);
              FirstOrganicSkips(items, j);
              break;
            }
            j := j + 1;
          }
          if !found {
            assert FirstOrganic(items).None?;
          }
        }
        listings := listings + [Listing(d.name, d.domain, d.importance, found, url, title, None)];
      }
      k := k + 1;
    }
  }

  /** Skipping items that are not organic does not change the first organic one. */
  lemma {:induction false} FirstOrganicSkips(items: seq<SerpItem>, j: nat)
    requires j <= |items|
    requires forall t :: 0 <= t < j ==> !IsOrganic(items[t])
    ensures FirstOrganic(items) == FirstOrganic(items[j..])
    decreases j
  {
    if j > 0 {
      assert items[0..] == items;
      FirstOrganicSkips(items[1..], j - 1);
      assert items[1..][j - 1..] == items[j..];
    } else {
      assert items[0..] == items;
    }
  }
}

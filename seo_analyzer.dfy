/**
 * The analysis pipeline of the TypeScript backend
 * (backend/src/services/seo-analyzer.ts): the keyword list for a city, the
 * folding of per-keyword search results into per-domain keyword → position
 * maps, the positional assembly of the competitor records, the scores, the
 * recommendation rules and the per-keyword comparison.
 *
 * The scores are computed in exact arithmetic where the source computes in
 * doubles: `Math.round(x)` is `floor(x + 1/2)`, written with integer division
 * where its operands are integers. At an exact half the double can fall just
 * below it, so the source may round to one less than the model.
 */
module SeoAnalyzer {
  import opened Wrappers
  import opened Text
  import StableSort
  import GooglePlaces
  import DataForSeo
  import Seqs

  /** The tracked search phrases; `{city}` is filled in per analysis. */
  const DentalKeywords: seq<string> := [
    "dentist near me",
    "dentist {city}",
    "emergency dentist {city}",
    "dental implants {city}",
    "teeth whitening {city}",
    "family dentist {city}",
    "cosmetic dentist {city}",
    "pediatric dentist {city}",
    "dental cleaning {city}",
    "root canal {city}",
    "dental crowns {city}",
    "invisalign {city}",
    "dentures {city}",
    "dental veneers {city}",
    "tooth extraction {city}",
    "best dentist {city}",
    "affordable dentist {city}",
    "dental office {city}"
  ]

  const CityMark: string := "{city}"

  /** The keyword list of an analysis: each template with its first `{city}` replaced. */
  function KeywordsFor(city: string): (ks: seq<string>)
    ensures |ks| == |DentalKeywords|
    ensures forall i :: 0 <= i < |ks| ==> ks[i] == ReplaceFirst(DentalKeywords[i], CityMark, city)
  {
    seq(|DentalKeywords|, i requires 0 <= i < |DentalKeywords| => ReplaceFirst(DentalKeywords[i], CityMark, city))
  }

  /** A template made of a brace-free phrase and `{city}` becomes the phrase and the city. */
  lemma CityKeyword(city: string, i: nat, phrase: string)
    requires i < |DentalKeywords| && DentalKeywords[i] == phrase + CityMark && '{' !in phrase
    ensures KeywordsFor(city)[i] == phrase + city
  {
    ReplaceTrailing(phrase, CityMark, city);
  }

  /** A template without a brace, such as "dentist near me", is kept as it is, whatever the city. */
  lemma FixedKeyword(city: string, i: nat)
    requires i < |DentalKeywords| && '{' !in DentalKeywords[i]
    ensures KeywordsFor(city)[i] == DentalKeywords[i]
  {
    MissingFirstChar(DentalKeywords[i], CityMark);
  }

  // ---------------------------------------------------------------------------
  // City extraction
  // ---------------------------------------------------------------------------

  /** `extractCity`: the trimmed next-to-last comma-separated part, or the whole trimmed address. */
  function ExtractCity(address: string): (city: string)
    ensures ',' !in address ==> city == Trim(address)
  {
    var parts := Split(address, ',');
    assert ',' !in address ==> parts == [address] by {
      if ',' !in address { SplitJoin([address], ','); }
    }
    CityOfParts(parts)
  }

  /** The trimmed next-to-last part, or the only part, trimmed. */
  function CityOfParts(parts: seq<string>): string
    requires |parts| >= 1
  {
    if |parts| >= 2 then Trim(parts[|parts| - 2]) else Trim(parts[0])
  }

  /** For an address made of comma-free parts, the city is the next-to-last part, trimmed. */
  lemma ExtractCityOfParts(parts: seq<string>)
    requires |parts| >= 2
    requires forall i :: 0 <= i < |parts| ==> ',' !in parts[i]
    ensures ExtractCity(Join(parts, ',')) == Trim(parts[|parts| - 2])
  {
    SplitJoin(parts, ',');
    assert ExtractCity(Join(parts, ',')) == CityOfParts(parts);
  }

  // ---------------------------------------------------------------------------
  // Records
  // ---------------------------------------------------------------------------

  /** A keyword → position map; the key is `undefined` for a result past the end of the keyword list. */
  type Rankings = map<Option<string>, Option<int>>

  datatype BacklinkFigures = BacklinkFigures(rank: int, backlinks: int, referringDomains: int)

  datatype OnPageFigures = OnPageFigures(score: real, title: string, loadTime: real)

  /** The practice or one competitor, as the report shows it. */
  datatype CompetitorData = CompetitorData(
    name: string,
    domain: string,
    website: string,
    backlinks: BacklinkFigures,
    onPage: OnPageFigures,
    rankings: Rankings)

  /** `rankings.get(keyword)`, where a missing key and a stored null both read as None. */
  function RankAt(rankings: Rankings, keyword: string): (r: Option<int>)
    ensures Some(keyword) !in rankings ==> r.None?
    ensures Some(keyword) in rankings ==> r == rankings[Some(keyword)]
  {
    if Some(keyword) in rankings then rankings[Some(keyword)] else None
  }

  // ---------------------------------------------------------------------------
  // Ranking reconciliation (the nested loops of `analyze`)
  // ---------------------------------------------------------------------------

  /** A result's domain with one leading `www.` removed. */
  function Unprefixed(domain: string): string {
    StripPrefix(domain, "www.")
  }

  predicate IsPracticeEntry(entry: DataForSeo.RankingItem, practiceDomain: string) {
    var d := Unprefixed(entry.domain);
    d == practiceDomain || d == "www." + practiceDomain
  }

  predicate IsEntryOf(entry: DataForSeo.RankingItem, domain: string) {
    Unprefixed(entry.domain) == domain
  }

  /** The position of the last entry that is the practice's, if any. */
  function LastPracticeRank(entries: seq<DataForSeo.RankingItem>, practiceDomain: string): Option<int> {
    if entries == [] then None
    else
      var last := entries[|entries| - 1];
      if IsPracticeEntry(last, practiceDomain) then Some(last.position)
      else LastPracticeRank(entries[..|entries| - 1], practiceDomain)
  }

  /** The position of the last entry that is `domain`'s, if any. */
  function LastRankOf(entries: seq<DataForSeo.RankingItem>, domain: string): Option<int> {
    if entries == [] then None
    else
      var last := entries[|entries| - 1];
      if IsEntryOf(last, domain) then Some(last.position)
      else LastRankOf(entries[..|entries| - 1], domain)
  }

  /** A found position is recorded under the keyword; no position leaves the map alone. */
  function WithRank(m: Rankings, keyword: Option<string>, rank: Option<int>): Rankings {
    match rank
    case None => m
    case Some(p) => m[keyword := Some(p)]
  }

  /** The practice's map after the given results: every result's keyword, with its last match or null. */
  function PracticeRankings(results: seq<DataForSeo.SerpResult>, practiceDomain: string): Rankings {
    if results == [] then map[]
    else
      var last := results[|results| - 1];
      PracticeRankings(results[..|results| - 1], practiceDomain)[last.keyword := LastPracticeRank(last.rankings, practiceDomain)]
  }

  /** A competitor's map after the given results: the keywords it was found for, with its last match. */
  function CompetitorRankings(results: seq<DataForSeo.SerpResult>, domain: string): Rankings {
    if results == [] then map[]
    else
      var last := results[|results| - 1];
      WithRank(CompetitorRankings(results[..|results| - 1], domain), last.keyword, LastRankOf(last.rankings, domain))
  }

  /** The competitor maps hold one entry per competitor domain, each as it stands after `done`. */
  predicate CompetitorsAfter(competitors: map<string, Rankings>, domains: seq<string>, done: seq<DataForSeo.SerpResult>) {
    && competitors.Keys == (set d | d in domains)
    && forall d :: d in competitors ==> competitors[d] == CompetitorRankings(done, d)
  }

  /** The competitor maps part-way through one result: entries before `seen` applied. */
  predicate CompetitorsDuring(
    competitors: map<string, Rankings>, domains: seq<string>, done: seq<DataForSeo.SerpResult>,
    keyword: Option<string>, seen: seq<DataForSeo.RankingItem>)
  {
    && competitors.Keys == (set d | d in domains)
    && forall d :: d in competitors ==> competitors[d] == WithRank(CompetitorRankings(done, d), keyword, LastRankOf(seen, d))
  }

  /**
   * The reconciliation loops: for every keyword result, the practice gets the
   * position of its last entry or null; every competitor domain gets the
   * position of its last entry, if it has one. Other domains are ignored.
   */
  method ReconcileRankings(practiceDomain: string, competitorDomains: seq<string>, results: seq<DataForSeo.SerpResult>)
    returns (practice: Rankings, competitors: map<string, Rankings>)
    ensures practice == PracticeRankings(results, practiceDomain)
    ensures competitors.Keys == set d | d in competitorDomains
    ensures forall d :: d in competitors ==> competitors[d] == CompetitorRankings(results, d)
  {
    practice := map[];
    competitors := map d | d in competitorDomains :: map[];
    var i := 0;
    while i < |results|
      invariant 0 <= i <= |results|
      invariant practice == PracticeRankings(results[..i], practiceDomain)
      invariant CompetitorsAfter(competitors, competitorDomains, results[..i])
    {
      var result := results[i];
      var practiceRank;
      practiceRank, competitors := ReconcileResult(result, practiceDomain, competitorDomains, results[..i], competitors);
      assert results[..i + 1] == results[..i] + [result];
      assert results[..i + 1][..i] == results[..i];
      practice := practice[result.keyword := practiceRank];
      i := i + 1;
    }
    assert results[..i] == results;
  }

  /** The inner loop over one keyword result's entries. */
  method ReconcileResult(
    result: DataForSeo.SerpResult, practiceDomain: string, domains: seq<string>,
    done: seq<DataForSeo.SerpResult>, competitors0: map<string, Rankings>)
    returns (practiceRank: Option<int>, competitors: map<string, Rankings>)
    requires CompetitorsAfter(competitors0, domains, done)
    ensures practiceRank == LastPracticeRank(result.rankings, practiceDomain)
    ensures CompetitorsAfter(competitors, domains, done + [result])
  {
    competitors := competitors0;
    practiceRank := None;
    var j := 0;
    while j < |result.rankings|
      invariant 0 <= j <= |result.rankings|
      invariant practiceRank == LastPracticeRank(result.rankings[..j], practiceDomain)
      invariant CompetitorsDuring(competitors, domains, done, result.keyword, result.rankings[..j])
    {
      var entry := result.rankings[j];
      assert result.rankings[..j + 1] == result.rankings[..j] + [entry];
      CompetitorsStep(competitors, domains, done, result.keyword, result.rankings[..j], entry);
      PracticeRankStep(result.rankings[..j], entry, practiceDomain);
      var domain := Unprefixed(entry.domain);
      if domain == practiceDomain || domain == "www." + practiceDomain {
        practiceRank := Some(entry.position);
      }
      if domain in competitors {
        competitors := competitors[domain := competitors[domain][result.keyword := Some(entry.position)]];
      }
      j := j + 1;
    }
    assert result.rankings[..j] == result.rankings;
    CompetitorsEnd(competitors, domains, done, result);
  }

  /** One more entry: a practice entry's position replaces the rank found so far. */
  lemma PracticeRankStep(seen: seq<DataForSeo.RankingItem>, entry: DataForSeo.RankingItem, practiceDomain: string)
    ensures LastPracticeRank(seen + [entry], practiceDomain)
         == if IsPracticeEntry(entry, practiceDomain) then Some(entry.position) else LastPracticeRank(seen, practiceDomain)
  {
    assert (seen + [entry])[..|seen|] == seen;
  }

  /** One entry applied to the competitor maps keeps them in step with `LastRankOf`. */
  lemma CompetitorsStep(
    competitors: map<string, Rankings>, domains: seq<string>, done: seq<DataForSeo.SerpResult>,
    keyword: Option<string>, seen: seq<DataForSeo.RankingItem>, entry: DataForSeo.RankingItem)
    requires CompetitorsDuring(competitors, domains, done, keyword, seen)
    ensures var domain := Unprefixed(entry.domain);
      CompetitorsDuring(
        if domain in competitors then competitors[domain := competitors[domain][keyword := Some(entry.position)]] else competitors,
        domains, done, keyword, seen + [entry])
  {
    var domain := Unprefixed(entry.domain);
    var after := if domain in competitors then competitors[domain := competitors[domain][keyword := Some(entry.position)]] else competitors;
    var seen' := seen + [entry];
    assert seen'[..|seen'| - 1] == seen;
    forall d | d in after
      ensures after[d] == WithRank(CompetitorRankings(done, d), keyword, LastRankOf(seen', d))
    {
      if d == domain {
        assert LastRankOf(seen', d) == Some(entry.position);
      } else {
        assert LastRankOf(seen', d) == LastRankOf(seen, d);
      }
    }
  }

  /** Once every entry is applied, the competitor maps stand as after one more result. */
  lemma CompetitorsEnd(
    competitors: map<string, Rankings>, domains: seq<string>, done: seq<DataForSeo.SerpResult>, result: DataForSeo.SerpResult)
    requires CompetitorsDuring(competitors, domains, done, result.keyword, result.rankings)
    ensures CompetitorsAfter(competitors, domains, done + [result])
  {
    assert (done + [result])[..|done|] == done;
  }

  /** Every keyword result gets a practice entry, and no other key appears. */
  lemma {:induction false} PracticeRankingsKeys(results: seq<DataForSeo.SerpResult>, practiceDomain: string, k: Option<string>)
    ensures k in PracticeRankings(results, practiceDomain) <==> exists i :: 0 <= i < |results| && results[i].keyword == k
    decreases |results|
  {
    if results != [] {
      var init := results[..|results| - 1];
      PracticeRankingsKeys(init, practiceDomain, k);
      assert forall i :: 0 <= i < |init| ==> init[i] == results[i];
    }
  }

  /** The practice's rank for a result is null exactly when none of its entries is the practice's. */
  lemma {:induction false} LastPracticeRankNone(entries: seq<DataForSeo.RankingItem>, practiceDomain: string)
    ensures LastPracticeRank(entries, practiceDomain).None? <==> forall i :: 0 <= i < |entries| ==> !IsPracticeEntry(entries[i], practiceDomain)
    decreases |entries|
  {
    if entries != [] {
      var init := entries[..|entries| - 1];
      LastPracticeRankNone(init, practiceDomain);
      assert forall i :: 0 <= i < |init| ==> init[i] == entries[i];
    }
  }

  /** A found rank is the position of a practice entry after which no practice entry follows: later matches win. */
  lemma {:induction false} LastPracticeRankLast(entries: seq<DataForSeo.RankingItem>, practiceDomain: string)
    requires LastPracticeRank(entries, practiceDomain).Some?
    ensures exists i :: 0 <= i < |entries| && IsPracticeEntry(entries[i], practiceDomain)
              && LastPracticeRank(entries, practiceDomain).value == entries[i].position
              && forall j :: i < j < |entries| ==> !IsPracticeEntry(entries[j], practiceDomain)
    decreases |entries|
  {
    var n := |entries| - 1;
    var init := entries[..n];
    if IsPracticeEntry(entries[n], practiceDomain) {
      assert LastPracticeRank(entries, practiceDomain).value == entries[n].position;
    } else {
      assert LastPracticeRank(entries, practiceDomain) == LastPracticeRank(init, practiceDomain);
      LastPracticeRankLast(init, practiceDomain);
      var i :| 0 <= i < |init| && IsPracticeEntry(init[i], practiceDomain)
               && LastPracticeRank(init, practiceDomain).value == init[i].position
               && forall j :: i < j < |init| ==> !IsPracticeEntry(init[j], practiceDomain);
      assert init[i] == entries[i];
      forall j | i < j < |entries| ensures !IsPracticeEntry(entries[j], practiceDomain) {
        if j < n {
          assert init[j] == entries[j];
        }
      }
    }
  }

  /** A competitor's rank for a result is found exactly when one of the entries is its domain's. */
  lemma {:induction false} LastRankOfNone(entries: seq<DataForSeo.RankingItem>, domain: string)
    ensures LastRankOf(entries, domain).None? <==> forall i :: 0 <= i < |entries| ==> !IsEntryOf(entries[i], domain)
    decreases |entries|
  {
    if entries != [] {
      var init := entries[..|entries| - 1];
      LastRankOfNone(init, domain);
      assert forall i :: 0 <= i < |init| ==> init[i] == entries[i];
    }
  }

  /** A competitor's map gains a keyword only from a result holding an entry of its domain. */
  lemma {:induction false} CompetitorRankingsKeys(results: seq<DataForSeo.SerpResult>, domain: string, k: Option<string>)
    ensures k in CompetitorRankings(results, domain) <==>
              exists i :: 0 <= i < |results| && results[i].keyword == k && LastRankOf(results[i].rankings, domain).Some?
    decreases |results|
  {
    if results != [] {
      var init := results[..|results| - 1];
      CompetitorRankingsKeys(init, domain, k);
      assert forall i :: 0 <= i < |init| ==> init[i] == results[i];
    }
  }

  /** Stored competitor positions are never null. */
  lemma {:induction false} CompetitorRankingsNotNull(results: seq<DataForSeo.SerpResult>, domain: string)
    ensures forall k :: k in CompetitorRankings(results, domain) ==> CompetitorRankings(results, domain)[k].Some?
    decreases |results|
  {
    if results != [] {
      CompetitorRankingsNotNull(results[..|results| - 1], domain);
    }
  }

  /**
   * The two tests are not exclusive: an entry of a competitor whose domain is
   * the practice's own is credited to both.
   */
  lemma PracticeDomainAlsoCompetitor(entries: seq<DataForSeo.RankingItem>, practiceDomain: string)
    requires LastRankOf(entries, practiceDomain).Some?
    ensures LastPracticeRank(entries, practiceDomain).Some?
  {
    LastRankOfNone(entries, practiceDomain);
    LastPracticeRankNone(entries, practiceDomain);
  }

  // ---------------------------------------------------------------------------
  // Competitor records (positional assembly in `analyze`)
  // ---------------------------------------------------------------------------

  /** Manual mode: every competitor domain is its own display name. */
  function ManualNames(domains: seq<string>): (names: map<string, string>)
    ensures forall d :: d in names <==> d in domains
    ensures forall d :: d in names ==> names[d] == d
  {
    map d | d in domains :: d
  }

  /** Auto mode: each website's domain is named after the last competitor with that website domain. */
  function AutoNames(competitors: seq<GooglePlaces.Competitor>): map<string, string> {
    if competitors == [] then map[]
    else
      var last := competitors[|competitors| - 1];
      var names := AutoNames(competitors[..|competitors| - 1]);
      if Truthy(last.website) then names[GooglePlaces.ExtractDomain(last.website.value) := last.name] else names
  }

  /** Auto mode: the domains of the competitors that have a website, in order. */
  function AutoDomains(competitors: seq<GooglePlaces.Competitor>): (domains: seq<string>)
    ensures |domains| <= |competitors|
  {
    if competitors == [] then []
    else
      var last := competitors[|competitors| - 1];
      var domains := AutoDomains(competitors[..|competitors| - 1]);
      if Truthy(last.website) then domains + [GooglePlaces.ExtractDomain(last.website.value)] else domains
  }

  /** Every auto-mode domain has a display name. */
  lemma {:induction false} AutoDomainsNamed(competitors: seq<GooglePlaces.Competitor>)
    ensures forall d :: d in AutoDomains(competitors) ==> d in AutoNames(competitors)
    decreases |competitors|
  {
    if competitors != [] {
      AutoDomainsNamed(competitors[..|competitors| - 1]);
    }
  }

  /** A last competitor with a website adds its domain at the end. */
  lemma AutoDomainsSnoc(competitors: seq<GooglePlaces.Competitor>)
    requires competitors != [] && GooglePlaces.HasWebsite(competitors[|competitors| - 1])
    ensures AutoDomains(competitors) ==
      AutoDomains(competitors[..|competitors| - 1]) + [SiteDomain(competitors[|competitors| - 1])]
  {
  }

  /** When every competitor has a website (as the search guarantees), each gives its domain, in order. */
  lemma AutoDomainsAllWebsites(competitors: seq<GooglePlaces.Competitor>)
    requires forall i :: 0 <= i < |competitors| ==> GooglePlaces.HasWebsite(competitors[i])
    ensures |AutoDomains(competitors)| == |competitors|
    ensures forall i :: 0 <= i < |competitors| ==>
              GooglePlaces.HasWebsite(competitors[i])
              && AutoDomains(competitors)[i] == GooglePlaces.ExtractDomain(competitors[i].website.value)
  {
    AutoDomainsSites(competitors);
    forall i | 0 <= i < |competitors|
      ensures AutoDomains(competitors)[i] == GooglePlaces.ExtractDomain(competitors[i].website.value)
    {
      assert AutoDomains(competitors)[i] == SiteDomain(competitors[i]);
    }
  }

  /** The key of a competitor's website, or the empty text without one. */
  function SiteDomain(c: GooglePlaces.Competitor): string {
    if GooglePlaces.HasWebsite(c) then GooglePlaces.ExtractDomain(c.website.value) else ""
  }

  /** `AutoDomains` keys every competitor when each has a website. */
  lemma {:induction false} AutoDomainsSites(competitors: seq<GooglePlaces.Competitor>)
    requires forall i :: 0 <= i < |competitors| ==> GooglePlaces.HasWebsite(competitors[i])
    ensures |AutoDomains(competitors)| == |competitors|
    ensures forall i :: 0 <= i < |competitors| ==> AutoDomains(competitors)[i] == SiteDomain(competitors[i])
    decreases |competitors|
  {
    if competitors != [] {
      var n := |competitors| - 1;
      var init := competitors[..n];
      assert forall i :: 0 <= i < |init| ==> init[i] == competitors[i];
      AutoDomainsSites(init);
      AutoDomainsSnoc(competitors);
      Seqs.SnocMapped(competitors, AutoDomains(init), AutoDomains(competitors), SiteDomain);
    }
  }

  /** `competitorNames.get(domain) || domain`. */
  function DisplayName(names: map<string, string>, domain: string): (name: string)
    ensures name != "" || domain == ""
    ensures domain in names && names[domain] != "" ==> name == names[domain]
  {
    if domain in names && names[domain] != "" then names[domain] else domain
  }

  /** The practice's backlink figures from the first batch result. */
  function BacklinksOf(b: DataForSeo.BacklinksResult): BacklinkFigures {
    BacklinkFigures(b.rank, b.backlinks, b.referringDomains)
  }

  /** The practice's on-page figures from the first batch result. */
  function OnPageOf(o: DataForSeo.OnPageResult): OnPageFigures {
    OnPageFigures(o.onpageScore, o.title, o.loadTime)
  }

  /**
   * The record of the competitor at position `index`: its figures are the batch
   * results at position `index + 1` (position 0 is the practice's), or zeros
   * when the batch came back shorter.
   */
  function CompetitorRecord(
    domain: string, index: nat, names: map<string, string>,
    backlinks: seq<DataForSeo.BacklinksResult>, onPage: seq<DataForSeo.OnPageResult>,
    rankingsMap: map<string, Rankings>): (c: CompetitorData)
    ensures c.domain == domain && c.website == "https://" + domain
    ensures index + 1 < |backlinks| ==> c.backlinks == BacklinksOf(backlinks[index + 1])
    ensures index + 1 >= |backlinks| ==> c.backlinks == BacklinkFigures(0, 0, 0)
    ensures index + 1 < |onPage| ==> c.onPage == OnPageOf(onPage[index + 1])
    ensures index + 1 >= |onPage| ==> c.onPage == OnPageFigures(0.0, "", 0.0)
  {
    CompetitorData(
      DisplayName(names, domain),
      domain,
      "https://" + domain,
      if index + 1 < |backlinks| then BacklinksOf(backlinks[index + 1]) else BacklinkFigures(0, 0, 0),
      if index + 1 < |onPage| then OnPageOf(onPage[index + 1]) else OnPageFigures(0.0, "", 0.0),
      if domain in rankingsMap then rankingsMap[domain] else map[])
  }

  /** `competitorDomains.map(...)`: one record per domain, in order. */
  function AssembleCompetitors(
    domains: seq<string>, names: map<string, string>,
    backlinks: seq<DataForSeo.BacklinksResult>, onPage: seq<DataForSeo.OnPageResult>,
    rankingsMap: map<string, Rankings>): (cs: seq<CompetitorData>)
    ensures |cs| == |domains|
    ensures forall i :: 0 <= i < |cs| ==> cs[i] == CompetitorRecord(domains[i], i, names, backlinks, onPage, rankingsMap)
  {
    seq(|domains|, i requires 0 <= i < |domains| => CompetitorRecord(domains[i], i, names, backlinks, onPage, rankingsMap))
  }

  // ---------------------------------------------------------------------------
  // Scores (`calculateScores`)
  // ---------------------------------------------------------------------------

  datatype Scores = Scores(overall: int, keywords: int, backlinks: int, technical: int)

  /** `Math.round(a / b)` for integers and a positive divisor: the nearest integer, halves upward. */
  function RoundDiv(a: int, b: int): (r: int)
    requires b > 0
    ensures 2 * b * r <= 2 * a + b < 2 * b * r + 2 * b
  {
    (2 * a + b) / (2 * b)
  }

  /** Rounding keeps a ratio in `[0, 100]` when the numerator is within `[0, 100 b]`. */
  /** Multiplying by a positive factor keeps the order of two integers, both ways. */
  lemma MulStrictOrEq(b: int, x: int, y: int)
    requires b > 0
    ensures x < y <==> b * x < b * y
  {
    assert b * y - b * x == b * (y - x);
  }

  /** The rounding interval determines the rounded value. */
  lemma RoundDivUnique(a: int, b: int, r: int)
    requires b > 0
    requires 2 * b * r <= 2 * a + b < 2 * b * r + 2 * b
    ensures r == RoundDiv(a, b)
  {
    var q := RoundDiv(a, b);
    MulStrictOrEq(2 * b, q, r + 1);
    MulStrictOrEq(2 * b, r, q + 1);
  }

  /** Rounding keeps a ratio in `[0, 100]` when the numerator is within `[0, 100 b]`. */
  lemma RoundDivPercent(a: int, b: int)
    requires b > 0 && 0 <= a <= 100 * b
    ensures 0 <= RoundDiv(a, b) <= 100
  {
    var r := RoundDiv(a, b);
    MulStrictOrEq(2 * b, r, 101);
    MulStrictOrEq(2 * b, -1, r);
  }

  /** `Math.round(100 a / (100 n))` is `Math.round(a / n)`. */
  lemma RoundDivScale(a: int, n: int)
    requires n > 0
    ensures RoundDiv(100 * a, 100 * n) == RoundDiv(a, n)
  {
    var r := RoundDiv(100 * a, 100 * n);
    assert 100 * (2 * n * r) <= 100 * (2 * a + n) < 100 * (2 * n * r + 2 * n);
    MulStrictOrEq(100, 2 * n * r - 1, 2 * a + n);
    MulStrictOrEq(100, 2 * a + n, 2 * n * r + 2 * n);
    RoundDivUnique(a, n, r);
  }

  /** `Math.round(x)` for a real: the nearest integer, halves upward. */
  function RoundReal(x: real): (r: int)
    ensures r as real <= x + 0.5 < r as real + 1.0
  {
    (x + 0.5).Floor
  }

  /** Points for one tracked keyword from the practice's position. */
  function KeywordPoints(rank: Option<int>): (points: int)
    ensures 0 <= points <= 100
    ensures points == 0 <==> rank.None?
    ensures rank.Some? && rank.value <= 3 <==> points == 100
    ensures rank.Some? && 3 < rank.value <= 10 <==> points == 70
    ensures rank.Some? && 10 < rank.value <= 20 <==> points == 40
    ensures rank.Some? && 20 < rank.value <= 50 <==> points == 20
    ensures rank.Some? && 50 < rank.value <==> points == 10
  {
    match rank
    case None => 0
    case Some(p) =>
      if p <= 3 then 100
      else if p <= 10 then 70
      else if p <= 20 then 40
      else if p <= 50 then 20
      else 10
  }

  /** The practice's keyword points summed over the keyword list. */
  function KeywordTotal(rankings: Rankings, keywords: seq<string>): (total: int)
    ensures 0 <= total <= 100 * |keywords|
  {
    if keywords == [] then 0
    else KeywordTotal(rankings, keywords[..|keywords| - 1]) + KeywordPoints(RankAt(rankings, keywords[|keywords| - 1]))
  }

  /** The largest of a non-empty list (`Math.max(...values)`). */
  function MaxOf(values: seq<int>): (m: int)
    requires |values| > 0
    ensures m in values
    ensures forall i :: 0 <= i < |values| ==> values[i] <= m
  {
    if |values| == 1 then values[0]
    else
      var rest := MaxOf(values[1..]);
      assert forall i :: 1 <= i < |values| ==> values[i] == values[1..][i - 1];
      if values[0] >= rest then values[0] else rest
  }

  /** The domain ranks of the practice followed by those of the competitors. */
  function AllRanks(practice: CompetitorData, competitors: seq<CompetitorData>): (ranks: seq<int>)
    ensures |ranks| == |competitors| + 1 && ranks[0] == practice.backlinks.rank
    ensures forall i :: 0 <= i < |competitors| ==> ranks[i + 1] == competitors[i].backlinks.rank
  {
    [practice.backlinks.rank] + seq(|competitors|, i requires 0 <= i < |competitors| => competitors[i].backlinks.rank)
  }

  /** The backlink score: the practice's rank relative to the best rank, or 0 when no rank is positive. */
  function BacklinksScore(practice: CompetitorData, competitors: seq<CompetitorData>): (score: int) {
    var maxRank := MaxOf(AllRanks(practice, competitors));
    if maxRank > 0 then RoundDiv(100 * practice.backlinks.rank, maxRank) else 0
  }

  /** `Math.round(0.4 k + 0.3 b + 0.3 t)`. */
  function OverallScore(k: int, b: int, t: int): (overall: int)
    ensures 20 * overall <= 8 * k + 6 * b + 6 * t + 10 < 20 * overall + 20
  {
    (4 * k + 3 * b + 3 * t + 5) / 10
  }

  /** The scores of a practice; the keyword score needs a non-empty keyword list (0/0 otherwise). */
  function ScoresOf(practice: CompetitorData, competitors: seq<CompetitorData>, keywords: seq<string>): (s: Scores)
    requires |keywords| > 0
  {
    var k := RoundDiv(KeywordTotal(practice.rankings, keywords), |keywords|);
    var b := BacklinksScore(practice, competitors);
    var t := RoundReal(practice.onPage.score);
    Scores(OverallScore(k, b, t), k, b, t)
  }

  /** The keyword loop of `calculateScores`: the points of every keyword, added up. */
  method SumKeywordPoints(rankings: Rankings, keywords: seq<string>) returns (total: int)
    ensures total == KeywordTotal(rankings, keywords)
  {
    total := 0;
    var i := 0;
    while i < |keywords|
      invariant 0 <= i <= |keywords|
      invariant total == KeywordTotal(rankings, keywords[..i])
    {
      assert keywords[..i + 1][..i] == keywords[..i];
      total := total + KeywordPoints(RankAt(rankings, keywords[i]));
      i := i + 1;
    }
    assert keywords[..i] == keywords;
  }

  /**
   * `calculateScores`: sums the keyword points in a loop, then derives the
   * keyword, backlink, technical and overall scores.
   */
  method CalculateScores(practice: CompetitorData, competitors: seq<CompetitorData>, keywords: seq<string>) returns (s: Scores)
    requires |keywords| > 0
    ensures s == ScoresOf(practice, competitors, keywords)
  {
    var keywordScore := SumKeywordPoints(practice.rankings, keywords);
    var n := |keywords|;
    var maxKeywordScore := n * 100;
    assert maxKeywordScore == 100 * n;
    var keywordsNormalized := RoundDiv(100 * keywordScore, maxKeywordScore);
    RoundDivScale(keywordScore, n);
    assert keywordsNormalized == RoundDiv(keywordScore, n);
    var allRanks := AllRanks(practice, competitors);
    var maxRank := MaxOf(allRanks);
    var backlinksNormalized := if maxRank > 0 then RoundDiv(100 * practice.backlinks.rank, maxRank) else 0;
    var technicalNormalized := RoundReal(practice.onPage.score);
    s := Scores(OverallScore(keywordsNormalized, backlinksNormalized, technicalNormalized),
                keywordsNormalized, backlinksNormalized, technicalNormalized);
  }

  /**
   * The scores are percentages: the keyword score always, the backlink score
   * when the practice's rank is not negative, the overall score when the
   * technical score is one too; with no positive rank the backlink score is 0.
   */
  lemma ScoresBounded(practice: CompetitorData, competitors: seq<CompetitorData>, keywords: seq<string>)
    requires |keywords| > 0
    ensures var s := ScoresOf(practice, competitors, keywords);
      && 0 <= s.keywords <= 100
      && (MaxOf(AllRanks(practice, competitors)) <= 0 ==> s.backlinks == 0)
      && (practice.backlinks.rank >= 0 ==> 0 <= s.backlinks <= 100)
      && (practice.backlinks.rank >= 0 && 0 <= s.technical <= 100 ==> 0 <= s.overall <= 100)
  {
    var s := ScoresOf(practice, competitors, keywords);
    RoundDivPercent(KeywordTotal(practice.rankings, keywords), |keywords|);
    var ranks := AllRanks(practice, competitors);
    var maxRank := MaxOf(ranks);
    if maxRank > 0 && practice.backlinks.rank >= 0 {
      assert ranks[0] <= maxRank;
      RoundDivPercent(100 * practice.backlinks.rank, maxRank);
    }
  }

  /** Each keyword ranked in the top three is worth a full 100 points: all of them give a keyword score of 100. */
  lemma {:induction false} AllTopThree(rankings: Rankings, keywords: seq<string>)
    requires forall i :: 0 <= i < |keywords| ==> RankAt(rankings, keywords[i]).Some? && RankAt(rankings, keywords[i]).value <= 3
    ensures KeywordTotal(rankings, keywords) == 100 * |keywords|
    decreases |keywords|
  {
    if keywords != [] {
      var init := keywords[..|keywords| - 1];
      assert forall i :: 0 <= i < |init| ==> init[i] == keywords[i];
      AllTopThree(rankings, init);
    }
  }

  /** With no keyword ranked the keyword score is 0. */
  lemma {:induction false} NoneRanked(rankings: Rankings, keywords: seq<string>)
    requires forall i :: 0 <= i < |keywords| ==> RankAt(rankings, keywords[i]).None?
    ensures KeywordTotal(rankings, keywords) == 0
    decreases |keywords|
  {
    if keywords != [] {
      var init := keywords[..|keywords| - 1];
      assert forall i :: 0 <= i < |init| ==> init[i] == keywords[i];
      NoneRanked(rankings, init);
    }
  }

  // ---------------------------------------------------------------------------
  // Recommendations (`generateRecommendations`)
  // ---------------------------------------------------------------------------

  datatype Priority = Critical | High | Medium | Low

  datatype Category = Keywords | Backlinks | Technical | Content

  /**
   * A recommendation: its priority, category and title, and the figures its
   * text prints; `Description` renders the text as the source formats it,
   * except for the one-decimal rounding ties and (Python) whole-star ratings
   * listed in the project's notes on what is left out.
   */
  datatype Recommendation = Recommendation(priority: Priority, category: Category, title: string, detail: Detail)

  /** The figures a recommendation's text prints, one variant per kind of text. */
  datatype Detail =
    | AuthorityDetail(rank: int, average: int)
    | TechnicalDetail(score: int)
    | NoTopTenDetail
    | KeywordRankingsDetail(topTen: int)
    | PageSpeedDetail(loadTime: real)
    | ReferringDetail(referring: int, average: int)

  /** The sort key of a priority: critical first, low last. */
  function PriorityOrder(p: Priority): (n: int)
    ensures 0 <= n <= 3
    ensures p == Critical <==> n == 0
  {
    match p
    case Critical => 0
    case High => 1
    case Medium => 2
    case Low => 3
  }

  function PriorityKey(r: Recommendation): int {
    PriorityOrder(r.priority)
  }

  /** The sum of one figure over the competitors (`reduce((sum, c) => sum + …, 0)`). */
  function SumOf(cs: seq<CompetitorData>, figure: CompetitorData -> int): int {
    if cs == [] then 0 else SumOf(cs[..|cs| - 1], figure) + figure(cs[|cs| - 1])
  }

  function DomainRank(c: CompetitorData): int { c.backlinks.rank }

  function ReferringDomains(c: CompetitorData): int { c.backlinks.referringDomains }

  /**
   * `x < (sum / n) * 0.5`, exactly; with no competitors the average is NaN and
   * the comparison is false.
   */
  predicate BelowHalfAverage(x: int, sum: int, n: nat) {
    n > 0 && 2 * x * n < sum
  }

  /** The keys of the practice's map whose position is known and at most 10. */
  function TopTenKeys(rankings: Rankings): (keys: set<Option<string>>)
    ensures forall k :: k in keys <==> k in rankings && rankings[k].Some? && rankings[k].value <= 10
  {
    set k | k in rankings && rankings[k].Some? && rankings[k].value <= 10
  }

  /** `n.toFixed(1)` for a non-negative number below 10^21: the nearest tenth, ties upward. */
  function Tenths(x: real): (s: string)
    requires x >= 0.0
  {
    var n := (x * 10.0 + 0.5).Floor;
    NatToString(n / 10) + "." + [DigitChar(n % 10)]
  }

  /** `x.toFixed(1)`: the sign, then the digits of the magnitude. */
  function Fixed1(x: real): string {
    if x < 0.0 then "-" + Tenths(-x) else Tenths(x)
  }

  /** Rounding ten times a whole number of tenths gives that number back. */
  lemma TenthsFloor(n: nat)
    ensures ((n as real / 10.0) * 10.0 + 0.5).Floor == n
  {
    var y := (n as real / 10.0) * 10.0 + 0.5;
    assert y == n as real + 0.5;
  }

  /** A whole number of tenths prints as its decimal digits with the point before the last one. */
  lemma Fixed1OfTenths(n: nat)
    ensures Fixed1(n as real / 10.0) == NatToString(n / 10) + "." + [DigitChar(n % 10)]
  {
    TenthsFloor(n);
  }

  const BuildAuthorityTitle: string := "Build Domain Authority"
  const TechnicalTitle: string := "Improve Technical SEO"
  const NoTopTenTitle: string := "No Keywords in Top 10"
  const KeywordRankingsTitle: string := "Improve Keyword Rankings"
  const PageSpeedTitle: string := "Improve Page Speed"
  const ReferringTitle: string := "Increase Referring Domains"

  /** One recommendation when `condition` holds, none otherwise. */
  function When(condition: bool, r: Recommendation): (rs: seq<Recommendation>)
    ensures rs == if condition then [r] else []
  {
    if condition then [r] else []
  }

  // The fixed parts of the recommendation texts.
  const AuthorityText1: string := "Your domain rank ("
  const AuthorityText2: string := ") is below the competitor average ("
  const AuthorityText3: string := "). Focus on acquiring quality backlinks from dental directories, local business listings, and community organizations."
  const TechnicalText1: string := "Your on-page SEO score is "
  const TechnicalText2: string := "/100. Address technical issues like page speed, meta tags, and mobile optimization."
  const NoTopTenText: string := "You have no dental keywords ranking in the top 10 search results. Focus on optimizing your homepage and service pages for key terms like \"dentist [your city]\" and \"family dentist [your city]\"."
  const KeywordRankingsText1: string := "You have "
  const KeywordRankingsText2: string := " keywords in the top 10. Target additional dental service keywords with dedicated landing pages."
  const PageSpeedText1: string := "Your page loads in "
  const PageSpeedText2: string := " seconds. Aim for under 3 seconds by optimizing images, enabling caching, and minimizing scripts."
  const ReferringText1: string := "You have "
  const ReferringText2: string := " referring domains vs competitor average of "
  const ReferringText3: string := ". Pursue link building through local partnerships and dental industry directories."

  /** The text of a recommendation, as the template strings of `generateRecommendations` print it. */
  function Description(d: Detail): string {
    match d
    case AuthorityDetail(rank, average) =>
      AuthorityText1 + IntToString(rank) + AuthorityText2 + IntToString(average) + AuthorityText3
    case TechnicalDetail(score) => TechnicalText1 + IntToString(score) + TechnicalText2
    case NoTopTenDetail => NoTopTenText
    case KeywordRankingsDetail(topTen) => KeywordRankingsText1 + IntToString(topTen) + KeywordRankingsText2
    case PageSpeedDetail(loadTime) => PageSpeedText1 + Fixed1(loadTime / 1000.0) + PageSpeedText2
    case ReferringDetail(referring, average) =>
      ReferringText1 + IntToString(referring) + ReferringText2 + IntToString(average) + ReferringText3
  }

  function AuthorityAdvice(rank: int, average: int): (r: Recommendation)
    ensures r.priority == High && r.category == Backlinks && r.title == BuildAuthorityTitle
  {
    Recommendation(High, Backlinks, BuildAuthorityTitle, AuthorityDetail(rank, average))
  }

  function TechnicalAdvice(score: real): (r: Recommendation)
    ensures r.priority == Critical && r.category == Technical && r.title == TechnicalTitle
  {
    Recommendation(Critical, Technical, TechnicalTitle, TechnicalDetail(RoundReal(score)))
  }

  function NoTopTenAdvice(): (r: Recommendation)
    ensures r.priority == Critical && r.category == Keywords && r.title == NoTopTenTitle
  {
    Recommendation(Critical, Keywords, NoTopTenTitle, NoTopTenDetail)
  }

  function KeywordRankingsAdvice(topTen: int): (r: Recommendation)
    ensures r.priority == High && r.category == Keywords && r.title == KeywordRankingsTitle
  {
    Recommendation(High, Keywords, KeywordRankingsTitle, KeywordRankingsDetail(topTen))
  }

  function PageSpeedAdvice(loadTime: real): (r: Recommendation)
    ensures r.priority == High && r.category == Technical && r.title == PageSpeedTitle
  {
    Recommendation(High, Technical, PageSpeedTitle, PageSpeedDetail(loadTime))
  }

  function ReferringAdvice(referring: int, average: int): (r: Recommendation)
    ensures r.priority == Medium && r.category == Backlinks && r.title == ReferringTitle
  {
    Recommendation(Medium, Backlinks, ReferringTitle, ReferringDetail(referring, average))
  }

  /** `Math.round(sum / n)`, shown only when the average is a number. */
  function RoundedAverage(sum: int, n: nat): int {
    if n > 0 then RoundDiv(sum, n) else 0
  }

  /** What the checks measure of the practice against the competitors. */
  datatype Measures = Measures(
    lowAuthority: bool, rank: int, rankAverage: int,
    lowTechnical: bool, score: real,
    topTen: nat,
    slow: bool, loadTime: real,
    fewReferring: bool, referring: int, referringAverage: int)

  /** The measurements `generateRecommendations` takes before deciding. */
  function Measure(practice: CompetitorData, competitors: seq<CompetitorData>): (m: Measures)
    ensures m.lowAuthority <==> BelowHalfAverage(practice.backlinks.rank, SumOf(competitors, DomainRank), |competitors|)
    ensures m.lowTechnical <==> practice.onPage.score < 70.0
    ensures m.topTen == |TopTenKeys(practice.rankings)|
    ensures m.slow <==> practice.onPage.loadTime > 3000.0
    ensures m.fewReferring <==> BelowHalfAverage(practice.backlinks.referringDomains, SumOf(competitors, ReferringDomains), |competitors|)
  {
    var n := |competitors|;
    var rankSum := SumOf(competitors, DomainRank);
    var referringSum := SumOf(competitors, ReferringDomains);
    Measures(
      BelowHalfAverage(practice.backlinks.rank, rankSum, n), practice.backlinks.rank, RoundedAverage(rankSum, n),
      practice.onPage.score < 70.0, practice.onPage.score,
      |TopTenKeys(practice.rankings)|,
      practice.onPage.loadTime > 3000.0, practice.onPage.loadTime,
      BelowHalfAverage(practice.backlinks.referringDomains, referringSum, n), practice.backlinks.referringDomains, RoundedAverage(referringSum, n))
  }

  /** The keyword check: none in the top 10, or fewer than five. */
  function KeywordRule(topTen: nat): seq<Recommendation> {
    if topTen == 0 then [NoTopTenAdvice()] else When(topTen < 5, KeywordRankingsAdvice(topTen))
  }

  /** The recommendations of the checks that fire, in the order the checks run. */
  function Rules(m: Measures): (rules: seq<Recommendation>)
    ensures |rules| <= 5
  {
    When(m.lowAuthority, AuthorityAdvice(m.rank, m.rankAverage))
    + When(m.lowTechnical, TechnicalAdvice(m.score))
    + KeywordRule(m.topTen)
    + When(m.slow, PageSpeedAdvice(m.loadTime))
    + When(m.fewReferring, ReferringAdvice(m.referring, m.referringAverage))
  }

  /** The recommendations in the order the checks run, before sorting. */
  function RuleList(practice: CompetitorData, competitors: seq<CompetitorData>): (rules: seq<Recommendation>)
    ensures |rules| <= 5
  {
    Rules(Measure(practice, competitors))
  }

  /** The recommendations, stably sorted by priority. */
  function GenerateRecommendations(practice: CompetitorData, competitors: seq<CompetitorData>): (recs: seq<Recommendation>)
    ensures |recs| <= 5
    ensures StableSort.SortedBy(recs, PriorityKey)
    ensures forall r :: r in recs <==> r in RuleList(practice, competitors)
  {
    var rules := RuleList(practice, competitors);
    var recs := StableSort.SortBy(rules, PriorityKey);
    assert forall r :: r in recs <==> r in rules by {
      forall r ensures r in recs <==> r in rules {
        StableSort.SortByMembers(rules, PriorityKey, r);
      }
    }
    recs
  }

  /** The titles of a list of recommendations, in order. */
  function Titles(recs: seq<Recommendation>): (ts: seq<string>)
    ensures |ts| == |recs| && forall i :: 0 <= i < |recs| ==> ts[i] == recs[i].title
  {
    seq(|recs|, i requires 0 <= i < |recs| => recs[i].title)
  }

  /** Some recommendation carries `title`. */
  predicate Advises(recs: seq<Recommendation>, title: string) {
    title in Titles(recs)
  }

  /** The six titles are pairwise distinct. */
  lemma TitlesDistinct()
    ensures BuildAuthorityTitle != TechnicalTitle && BuildAuthorityTitle != NoTopTenTitle
    ensures BuildAuthorityTitle != KeywordRankingsTitle && BuildAuthorityTitle != PageSpeedTitle
    ensures BuildAuthorityTitle != ReferringTitle && TechnicalTitle != NoTopTenTitle
    ensures TechnicalTitle != KeywordRankingsTitle && TechnicalTitle != PageSpeedTitle
    ensures TechnicalTitle != ReferringTitle && NoTopTenTitle != KeywordRankingsTitle
    ensures NoTopTenTitle != PageSpeedTitle && NoTopTenTitle != ReferringTitle
    ensures KeywordRankingsTitle != PageSpeedTitle && KeywordRankingsTitle != ReferringTitle
    ensures PageSpeedTitle != ReferringTitle
  {
    assert |BuildAuthorityTitle| == 22 && |TechnicalTitle| == 21 && |NoTopTenTitle| == 21;
    assert |KeywordRankingsTitle| == 24 && |PageSpeedTitle| == 18 && |ReferringTitle| == 26;
    assert TechnicalTitle[0] != NoTopTenTitle[0];
  }

  lemma TitlesConcat(a: seq<Recommendation>, b: seq<Recommendation>)
    ensures Titles(a + b) == Titles(a) + Titles(b)
  {
  }

  lemma WhenTitles(condition: bool, r: Recommendation)
    ensures Titles(When(condition, r)) == if condition then [r.title] else []
  {
  }

  /** The titles of the checks that fire, in check order. */
  function FiredTitles(m: Measures): seq<string> {
    (if m.lowAuthority then [BuildAuthorityTitle] else [])
    + (if m.lowTechnical then [TechnicalTitle] else [])
    + (if m.topTen == 0 then [NoTopTenTitle] else if m.topTen < 5 then [KeywordRankingsTitle] else [])
    + (if m.slow then [PageSpeedTitle] else [])
    + (if m.fewReferring then [ReferringTitle] else [])
  }

  /** A title is among the fired ones when it is in one of the five check parts. */
  lemma FiredTitlesParts(m: Measures, title: string)
    ensures title in FiredTitles(m) <==>
      || (m.lowAuthority && title == BuildAuthorityTitle)
      || (m.lowTechnical && title == TechnicalTitle)
      || (m.topTen == 0 && title == NoTopTenTitle)
      || (0 < m.topTen < 5 && title == KeywordRankingsTitle)
      || (m.slow && title == PageSpeedTitle)
      || (m.fewReferring && title == ReferringTitle)
  {
    var a := if m.lowAuthority then [BuildAuthorityTitle] else [];
    var b := if m.lowTechnical then [TechnicalTitle] else [];
    var c := if m.topTen == 0 then [NoTopTenTitle] else if m.topTen < 5 then [KeywordRankingsTitle] else [];
    var d := if m.slow then [PageSpeedTitle] else [];
    var e := if m.fewReferring then [ReferringTitle] else [];
    assert FiredTitles(m) == a + b + c + d + e;
    assert title in a + b + c + d + e <==> title in a || title in b || title in c || title in d || title in e;
  }

  /** The authority title is among the fired ones exactly when its check fires. */
  lemma FiredAuthority(m: Measures)
    ensures BuildAuthorityTitle in FiredTitles(m) <==> m.lowAuthority
  {
    TitlesDistinct();
    FiredTitlesParts(m, BuildAuthorityTitle);
  }

  /** The technical title is among the fired ones exactly when its check fires. */
  lemma FiredTechnical(m: Measures)
    ensures TechnicalTitle in FiredTitles(m) <==> m.lowTechnical
  {
    TitlesDistinct();
    FiredTitlesParts(m, TechnicalTitle);
  }

  /** The no-top-ten title is among the fired ones exactly when no keyword is in the top 10. */
  lemma FiredNoTopTen(m: Measures)
    ensures NoTopTenTitle in FiredTitles(m) <==> m.topTen == 0
  {
    TitlesDistinct();
    FiredTitlesParts(m, NoTopTenTitle);
  }

  /** The keyword-rankings title is among the fired ones exactly when one to four keywords are in the top 10. */
  lemma FiredKeywordRankings(m: Measures)
    ensures KeywordRankingsTitle in FiredTitles(m) <==> 0 < m.topTen < 5
  {
    TitlesDistinct();
    FiredTitlesParts(m, KeywordRankingsTitle);
  }

  /** The page-speed title is among the fired ones exactly when its check fires. */
  lemma FiredPageSpeed(m: Measures)
    ensures PageSpeedTitle in FiredTitles(m) <==> m.slow
  {
    TitlesDistinct();
    FiredTitlesParts(m, PageSpeedTitle);
  }

  /** The referring-domains title is among the fired ones exactly when its check fires. */
  lemma FiredReferring(m: Measures)
    ensures ReferringTitle in FiredTitles(m) <==> m.fewReferring
  {
    TitlesDistinct();
    FiredTitlesParts(m, ReferringTitle);
  }

  /** The recommendations carry the titles of the checks that fire, in order. */
  lemma RulesTitles(m: Measures)
    ensures Titles(Rules(m)) == FiredTitles(m)
  {
    var authority := When(m.lowAuthority, AuthorityAdvice(m.rank, m.rankAverage));
    var technical := When(m.lowTechnical, TechnicalAdvice(m.score));
    var keywords := KeywordRule(m.topTen);
    var speed := When(m.slow, PageSpeedAdvice(m.loadTime));
    var referring := When(m.fewReferring, ReferringAdvice(m.referring, m.referringAverage));
    WhenTitles(m.lowAuthority, AuthorityAdvice(m.rank, m.rankAverage));
    WhenTitles(m.lowTechnical, TechnicalAdvice(m.score));
    WhenTitles(true, NoTopTenAdvice());
    WhenTitles(m.topTen < 5, KeywordRankingsAdvice(m.topTen));
    WhenTitles(m.slow, PageSpeedAdvice(m.loadTime));
    WhenTitles(m.fewReferring, ReferringAdvice(m.referring, m.referringAverage));
    TitlesConcat(authority, technical);
    TitlesConcat(authority + technical, keywords);
    TitlesConcat(authority + technical + keywords, speed);
    TitlesConcat(authority + technical + keywords + speed, referring);
  }

  /** Two lists with the same members carry the same titles. */
  lemma SameMembersSameTitles(a: seq<Recommendation>, b: seq<Recommendation>, title: string)
    requires forall r :: r in a <==> r in b
    ensures Advises(a, title) <==> Advises(b, title)
  {
    if Advises(a, title) {
      var i :| 0 <= i < |a| && Titles(a)[i] == title;
      assert a[i] in b;
      var j :| 0 <= j < |b| && b[j] == a[i];
      assert Titles(b)[j] == title;
    }
    if Advises(b, title) {
      var i :| 0 <= i < |b| && Titles(b)[i] == title;
      assert b[i] in a;
      var j :| 0 <= j < |a| && a[j] == b[i];
      assert Titles(a)[j] == title;
    }
  }

  /** The sorted recommendations carry exactly the titles of the checks that fire. */
  lemma GeneratedTitles(practice: CompetitorData, competitors: seq<CompetitorData>, title: string)
    ensures Advises(GenerateRecommendations(practice, competitors), title) <==> title in FiredTitles(Measure(practice, competitors))
  {
    SameMembersSameTitles(GenerateRecommendations(practice, competitors), RuleList(practice, competitors), title);
    RulesTitles(Measure(practice, competitors));
  }

  /**
   * Each recommendation is given exactly when its check fires; `Measure`
   * states each check in terms of the practice and the competitors.
   */
  lemma RecommendationRules(practice: CompetitorData, competitors: seq<CompetitorData>)
    ensures Advises(GenerateRecommendations(practice, competitors), BuildAuthorityTitle) <==> Measure(practice, competitors).lowAuthority
    ensures Advises(GenerateRecommendations(practice, competitors), TechnicalTitle) <==> Measure(practice, competitors).lowTechnical
    ensures Advises(GenerateRecommendations(practice, competitors), NoTopTenTitle) <==> Measure(practice, competitors).topTen == 0
    ensures Advises(GenerateRecommendations(practice, competitors), KeywordRankingsTitle) <==> 0 < Measure(practice, competitors).topTen < 5
    ensures Advises(GenerateRecommendations(practice, competitors), PageSpeedTitle) <==> Measure(practice, competitors).slow
    ensures Advises(GenerateRecommendations(practice, competitors), ReferringTitle) <==> Measure(practice, competitors).fewReferring
  {
    var m := Measure(practice, competitors);
    var recs := GenerateRecommendations(practice, competitors);
    assert Advises(recs, BuildAuthorityTitle) <==> m.lowAuthority by {
      FiredAuthority(m);
      GeneratedTitles(practice, competitors, BuildAuthorityTitle);
    }
    assert Advises(recs, TechnicalTitle) <==> m.lowTechnical by {
      FiredTechnical(m);
      GeneratedTitles(practice, competitors, TechnicalTitle);
    }
    assert Advises(recs, NoTopTenTitle) <==> m.topTen == 0 by {
      FiredNoTopTen(m);
      GeneratedTitles(practice, competitors, NoTopTenTitle);
    }
    assert Advises(recs, KeywordRankingsTitle) <==> 0 < m.topTen < 5 by {
      FiredKeywordRankings(m);
      GeneratedTitles(practice, competitors, KeywordRankingsTitle);
    }
    assert Advises(recs, PageSpeedTitle) <==> m.slow by {
      FiredPageSpeed(m);
      GeneratedTitles(practice, competitors, PageSpeedTitle);
    }
    assert Advises(recs, ReferringTitle) <==> m.fewReferring by {
      FiredReferring(m);
      GeneratedTitles(practice, competitors, ReferringTitle);
    }
  }

  /** At most one of the two keyword recommendations is given. */
  lemma KeywordAdviceExclusive(practice: CompetitorData, competitors: seq<CompetitorData>)
    ensures var recs := GenerateRecommendations(practice, competitors);
      !(Advises(recs, NoTopTenTitle) && Advises(recs, KeywordRankingsTitle))
  {
    RecommendationRules(practice, competitors);
  }

  /** Without competitors the averages are NaN, so no backlink recommendation is given. */
  lemma NoCompetitorsNoBacklinkAdvice(practice: CompetitorData)
    ensures forall r :: r in GenerateRecommendations(practice, []) ==> r.category != Backlinks
  {
    var m := Measure(practice, []);
    assert !m.lowAuthority && !m.fewReferring;
    var technical := When(m.lowTechnical, TechnicalAdvice(m.score));
    var keywords := KeywordRule(m.topTen);
    var speed := When(m.slow, PageSpeedAdvice(m.loadTime));
    assert Rules(m) == [] + technical + keywords + speed + [];
    forall r | r in RuleList(practice, []) ensures r.category != Backlinks {
      assert r in technical || r in keywords || r in speed;
    }
  }

  /** The sort keeps the check order among recommendations of one priority. */
  lemma RecommendationsStable(practice: CompetitorData, competitors: seq<CompetitorData>, p: Priority)
    ensures StableSort.WithKey(GenerateRecommendations(practice, competitors), PriorityKey, PriorityOrder(p))
         == StableSort.WithKey(RuleList(practice, competitors), PriorityKey, PriorityOrder(p))
  {
    StableSort.SortByStable(RuleList(practice, competitors), PriorityKey, PriorityOrder(p));
  }

  // ---------------------------------------------------------------------------
  // Keyword comparison (`buildKeywordComparisons`)
  // ---------------------------------------------------------------------------

  datatype KeywordComparison = KeywordComparison(
    keyword: string,
    practiceRank: Option<int>,
    bestCompetitorRank: Option<int>,
    bestCompetitor: Option<string>,
    avgCompetitorRank: Option<int>)

  /** `rank || null`: a position of 0 reads as no position. */
  function TruthyRank(r: Option<int>): (t: Option<int>)
    ensures t.Some? <==> r.Some? && r.value != 0
    ensures t.Some? ==> t == r
  {
    if r.Some? && r.value != 0 then r else None
  }

  /** The best competitor position for a keyword and who holds it. */
  datatype Leader = Leader(rank: int, name: string)

  /** The first competitor with the smallest known position for `keyword`. */
  function BestCompetitor(cs: seq<CompetitorData>, keyword: string): Option<Leader> {
    if cs == [] then None
    else
      var best := BestCompetitor(cs[..|cs| - 1], keyword);
      var c := cs[|cs| - 1];
      match RankAt(c.rankings, keyword)
      case None => best
      case Some(rank) => if best.None? || rank < best.value.rank then Some(Leader(rank, c.name)) else best
  }

  /** The sum of the competitors' known positions for `keyword`. */
  function RankTotal(cs: seq<CompetitorData>, keyword: string): int {
    if cs == [] then 0
    else
      var rank := RankAt(cs[|cs| - 1].rankings, keyword);
      RankTotal(cs[..|cs| - 1], keyword) + (if rank.Some? then rank.value else 0)
  }

  /** How many competitors have a known position for `keyword`. */
  function RankedCount(cs: seq<CompetitorData>, keyword: string): (n: nat)
    ensures n <= |cs|
  {
    if cs == [] then 0
    else RankedCount(cs[..|cs| - 1], keyword) + (if RankAt(cs[|cs| - 1].rankings, keyword).Some? then 1 else 0)
  }

  /** One row of the keyword table. */
  function ComparisonOf(keyword: string, practice: CompetitorData, cs: seq<CompetitorData>): KeywordComparison {
    var best := BestCompetitor(cs, keyword);
    var count := RankedCount(cs, keyword);
    KeywordComparison(
      keyword,
      TruthyRank(RankAt(practice.rankings, keyword)),
      if best.Some? then Some(best.value.rank) else None,
      if best.Some? then Some(best.value.name) else None,
      if count > 0 then Some(RoundDiv(RankTotal(cs, keyword), count)) else None)
  }

  /** The keyword table: one row per keyword, in keyword order. */
  function KeywordComparisons(keywords: seq<string>, practice: CompetitorData, cs: seq<CompetitorData>): (rows: seq<KeywordComparison>)
    ensures |rows| == |keywords|
    ensures forall i :: 0 <= i < |rows| ==> rows[i] == ComparisonOf(keywords[i], practice, cs)
  {
    seq(|keywords|, i requires 0 <= i < |keywords| => ComparisonOf(keywords[i], practice, cs))
  }

  /** The leader's position is no worse than any competitor's known position. */
  lemma {:induction false} BestIsMinimum(cs: seq<CompetitorData>, keyword: string, i: nat)
    requires i < |cs| && RankAt(cs[i].rankings, keyword).Some?
    ensures BestCompetitor(cs, keyword).Some?
    ensures BestCompetitor(cs, keyword).value.rank <= RankAt(cs[i].rankings, keyword).value
    decreases |cs|
  {
    var init := cs[..|cs| - 1];
    if i < |cs| - 1 {
      assert init[i] == cs[i];
      BestIsMinimum(init, keyword, i);
    }
  }

  /**
   * The leader is a competitor that holds the leading position, and every
   * competitor before it has no position or a worse one.
   */
  lemma {:induction false} BestAttained(cs: seq<CompetitorData>, keyword: string) returns (i: nat)
    requires BestCompetitor(cs, keyword).Some?
    ensures i < |cs|
    ensures RankAt(cs[i].rankings, keyword) == Some(BestCompetitor(cs, keyword).value.rank)
    ensures cs[i].name == BestCompetitor(cs, keyword).value.name
    ensures forall j :: 0 <= j < i ==> RankAt(cs[j].rankings, keyword).None? || RankAt(cs[j].rankings, keyword).value > BestCompetitor(cs, keyword).value.rank
    decreases |cs|
  {
    var init := cs[..|cs| - 1];
    var best := BestCompetitor(init, keyword);
    var last := RankAt(cs[|cs| - 1].rankings, keyword);
    if last.Some? && (best.None? || last.value < best.value.rank) {
      i := |cs| - 1;
      forall j | 0 <= j < i && RankAt(cs[j].rankings, keyword).Some?
        ensures RankAt(cs[j].rankings, keyword).value > last.value
      {
        assert init[j] == cs[j];
        BestIsMinimum(init, keyword, j);
      }
    } else {
      i := BestAttained(init, keyword);
      assert forall j :: 0 <= j < |init| ==> init[j] == cs[j];
    }
  }

  /** There is a leader exactly when some competitor has a position, i.e. when the average is defined. */
  lemma {:induction false} LeaderIffRanked(cs: seq<CompetitorData>, keyword: string)
    ensures BestCompetitor(cs, keyword).Some? <==> RankedCount(cs, keyword) > 0
    ensures RankedCount(cs, keyword) > 0 <==> exists i :: 0 <= i < |cs| && RankAt(cs[i].rankings, keyword).Some?
    decreases |cs|
  {
    if cs != [] {
      var init := cs[..|cs| - 1];
      LeaderIffRanked(init, keyword);
      assert forall i :: 0 <= i < |init| ==> init[i] == cs[i];
    }
  }

  /** The total of the known positions is at least their count times a lower bound. */
  lemma {:induction false} TotalAtLeast(cs: seq<CompetitorData>, keyword: string, m: int)
    requires forall i :: 0 <= i < |cs| && RankAt(cs[i].rankings, keyword).Some? ==> m <= RankAt(cs[i].rankings, keyword).value
    ensures RankTotal(cs, keyword) >= RankedCount(cs, keyword) * m
    decreases |cs|
  {
    if cs != [] {
      var init := cs[..|cs| - 1];
      assert forall i :: 0 <= i < |init| ==> init[i] == cs[i];
      TotalAtLeast(init, keyword, m);
    }
  }

  /** An average of values that are all at least `m` rounds to at least `m`. */
  lemma RoundedAverageAtLeast(total: int, count: int, m: int)
    requires count > 0 && total >= count * m
    ensures RoundDiv(total, count) >= m
  {
    var avg := RoundDiv(total, count);
    assert 2 * total >= 2 * count * m;
    assert 2 * count * avg <= 2 * total + count < 2 * count * avg + 2 * count;
    assert 2 * count * (avg + 1) == 2 * count * avg + 2 * count;
    MulStrictOrEq(2 * count, m, avg + 1);
  }

  /** The best competitor position never exceeds the rounded average position. */
  lemma LeaderNoWorseThanAverage(keyword: string, practice: CompetitorData, cs: seq<CompetitorData>)
    requires RankedCount(cs, keyword) > 0
    ensures var row := ComparisonOf(keyword, practice, cs);
      row.bestCompetitorRank.Some? && row.avgCompetitorRank.Some? && row.bestCompetitorRank.value <= row.avgCompetitorRank.value
  {
    LeaderIffRanked(cs, keyword);
    var best := BestCompetitor(cs, keyword).value.rank;
    forall i | 0 <= i < |cs| && RankAt(cs[i].rankings, keyword).Some?
      ensures best <= RankAt(cs[i].rankings, keyword).value
    {
      BestIsMinimum(cs, keyword, i);
    }
    TotalAtLeast(cs, keyword, best);
    var count := RankedCount(cs, keyword);
    var total := RankTotal(cs, keyword);
    RoundedAverageAtLeast(total, count, best);
  }

  /** One keyword row: the loop over the competitors keeps a running leader, total and count. */
  method CompareKeyword(keyword: string, practice: CompetitorData, competitors: seq<CompetitorData>) returns (row: KeywordComparison)
    ensures row == ComparisonOf(keyword, practice, competitors)
  {
    var practiceRank := TruthyRank(RankAt(practice.rankings, keyword));
    var bestCompetitorRank: Option<int> := None;
    var bestCompetitor: Option<string> := None;
    var totalRank := 0;
    var rankedCount := 0;
    var i := 0;
    while i < |competitors|
      invariant 0 <= i <= |competitors|
      invariant var best := BestCompetitor(competitors[..i], keyword);
        && bestCompetitorRank == (if best.Some? then Some(best.value.rank) else None)
        && bestCompetitor == (if best.Some? then Some(best.value.name) else None)
      invariant totalRank == RankTotal(competitors[..i], keyword)
      invariant rankedCount == RankedCount(competitors[..i], keyword)
    {
      assert competitors[..i + 1][..i] == competitors[..i];
      var rank := RankAt(competitors[i].rankings, keyword);
      if rank.Some? {
        totalRank := totalRank + rank.value;
        rankedCount := rankedCount + 1;
        if bestCompetitorRank.None? || rank.value < bestCompetitorRank.value {
          bestCompetitorRank := Some(rank.value);
          bestCompetitor := Some(competitors[i].name);
        }
      }
      i := i + 1;
    }
    assert competitors[..i] == competitors;
    row := KeywordComparison(keyword, practiceRank, bestCompetitorRank, bestCompetitor,
                             if rankedCount > 0 then Some(RoundDiv(totalRank, rankedCount)) else None);
  }

  /** `buildKeywordComparisons`: one row per keyword, in keyword order. */
  method BuildKeywordComparisons(keywords: seq<string>, practice: CompetitorData, competitors: seq<CompetitorData>)
    returns (rows: seq<KeywordComparison>)
    ensures rows == KeywordComparisons(keywords, practice, competitors)
  {
    rows := [];
    var i := 0;
    while i < |keywords|
      invariant 0 <= i <= |keywords| && |rows| == i
      invariant forall j :: 0 <= j < i ==> rows[j] == ComparisonOf(keywords[j], practice, competitors)
    {
      var row := CompareKeyword(keywords[i], practice, competitors);
      rows := rows + [row];
      i := i + 1;
    }
  }

  // ---------------------------------------------------------------------------
  // The whole analysis (`analyze`)
  // ---------------------------------------------------------------------------

  /** What the form submits; `manualCompetitors` and `city` are optional. */
  datatype AnalysisRequest = AnalysisRequest(
    practiceName: string,
    address: string,
    websiteUrl: string,
    competitorMode: string,
    manualCompetitors: Option<seq<string>>,
    city: Option<string>)

  /** The Google endpoints: the key, geocoding, the nearby search at a point, and place details. */
  datatype PlacesApi = PlacesApi(
    apiKey: string,
    geocoder: string -> GooglePlaces.GeocodeReply,
    nearby: (real, real, Option<string>) -> GooglePlaces.NearbyReply,
    details: string -> GooglePlaces.DetailsReply)

  /** The DataForSEO endpoints, each answering a whole batch of targets. */
  datatype SeoApi = SeoApi(
    backlinks: seq<string> -> DataForSeo.Reply<DataForSeo.BacklinksSummary>,
    onPage: seq<string> -> DataForSeo.Reply<DataForSeo.OnPageBlock>,
    serp: seq<string> -> DataForSeo.Reply<DataForSeo.SerpBlock>)

  datatype AnalysisReport = AnalysisReport(
    id: string,
    practiceName: string,
    practiceWebsite: string,
    createdAt: int,
    practiceData: CompetitorData,
    competitors: seq<CompetitorData>,
    scores: Scores,
    recommendations: seq<Recommendation>,
    keywordData: seq<KeywordComparison>)

  /** One progress report: what is being done and how far along the analysis is. */
  datatype ProgressStep = ProgressStep(step: string, percent: int)

  /** The progress reports of a complete analysis, in order. */
  const Progress: seq<ProgressStep> := [
    ProgressStep("Finding competitors...", 10),
    ProgressStep("Analyzing domain authority...", 25),
    ProgressStep("Analyzing technical SEO...", 40),
    ProgressStep("Checking keyword rankings...", 60),
    ProgressStep("Processing rankings...", 80),
    ProgressStep("Generating report...", 90),
    ProgressStep("Analysis complete!", 100)
  ]

  /** The errors thrown when the batch results hold nothing for the practice. */
  const NoPracticeBacklinks: string := "Cannot read properties of undefined (reading 'rank')"
  const NoPracticeOnPage: string := "Cannot read properties of undefined (reading 'onpageScore')"

  /** The competitor domains and their display names. */
  datatype Discovery = Discovery(domains: seq<string>, names: map<string, string>)

  /** The analysis's result and how many progress reports it made before it ended. */
  datatype Outcome = Outcome(result: Result<AnalysisReport>, reported: nat)

  /** Manual mode needs the mode and a competitor list; anything else discovers competitors. */
  predicate ManualMode(request: AnalysisRequest) {
    request.competitorMode == "manual" && request.manualCompetitors.Some?
  }

  /** The domains of the given URLs, in order. */
  function DomainsOf(urls: seq<string>): (ds: seq<string>)
    ensures |ds| == |urls| && forall i :: 0 <= i < |urls| ==> ds[i] == GooglePlaces.ExtractDomain(urls[i])
  {
    seq(|urls|, i requires 0 <= i < |urls| => GooglePlaces.ExtractDomain(urls[i]))
  }

  /** `https://` in front of each domain. */
  function HomePages(domains: seq<string>): (urls: seq<string>)
    ensures |urls| == |domains| && forall i :: 0 <= i < |domains| ==> urls[i] == "https://" + domains[i]
  {
    seq(|domains|, i requires 0 <= i < |domains| => "https://" + domains[i])
  }

  /** The nearby search around a geocoded point. */
  function NearbyAround(places: PlacesApi, at: GooglePlaces.GeocodingResult): Option<string> -> GooglePlaces.NearbyReply {
    token => places.nearby(at.lat, at.lng, token)
  }

  /** Step 1: the manual list, or geocoding followed by the nearby search. */
  function Discover(request: AnalysisRequest, places: PlacesApi): (r: Result<Discovery>)
    ensures ManualMode(request) ==> r == Ok(Discovery(DomainsOf(request.manualCompetitors.value), ManualNames(DomainsOf(request.manualCompetitors.value))))
    ensures !ManualMode(request) ==>
      var geo := GooglePlaces.GeocodeAddress(places.apiKey, request.address, places.geocoder);
      && (geo.Err? ==> r == Err(geo.message))
      && (geo.Ok? ==>
            var search := GooglePlaces.DentalCompetitors(places.apiKey, NearbyAround(places, geo.value), places.details, GooglePlaces.DefaultLimit);
            && (search.Err? ==> r == Err(search.message))
            && (search.Ok? ==> r.Ok? && |r.value.domains| == |search.value| <= GooglePlaces.DefaultLimit
                               && forall d :: d in r.value.domains ==> d in r.value.names))
  {
    if ManualMode(request) then
      var domains := DomainsOf(request.manualCompetitors.value);
      Ok(Discovery(domains, ManualNames(domains)))
    else
      match GooglePlaces.GeocodeAddress(places.apiKey, request.address, places.geocoder)
      case Err(e) => Err(e)
      case Ok(at) =>
        match GooglePlaces.DentalCompetitors(places.apiKey, NearbyAround(places, at), places.details, GooglePlaces.DefaultLimit)
        case Err(e) => Err(e)
        case Ok(competitors) =>
          AutoDomainsAllWebsites(competitors);
          AutoDomainsNamed(competitors);
          Ok(Discovery(AutoDomains(competitors), AutoNames(competitors)))
  }

  /** The city of the keywords: the request's, or the one taken from the address. */
  function CityOf(request: AnalysisRequest): string {
    if Truthy(request.city) then request.city.value else ExtractCity(request.address)
  }

  /** The competitor keyword maps for every competitor domain. */
  function CompetitorRankingsOf(domains: seq<string>, results: seq<DataForSeo.SerpResult>): (m: map<string, Rankings>)
    ensures m.Keys == set d | d in domains
    ensures forall d :: d in m ==> m[d] == CompetitorRankings(results, d)
  {
    map d | d in domains :: CompetitorRankings(results, d)
  }

  /** The practice's record from the first batch results. */
  function PracticeRecord(
    request: AnalysisRequest, practiceDomain: string,
    backlinks: DataForSeo.BacklinksResult, onPage: DataForSeo.OnPageResult, rankings: Rankings): CompetitorData
  {
    CompetitorData(request.practiceName, practiceDomain, request.websiteUrl, BacklinksOf(backlinks), OnPageOf(onPage), rankings)
  }

  /** Steps 5 to 7, once every provider has answered. */
  function Assemble(
    request: AnalysisRequest, practiceDomain: string, found: Discovery, keywords: seq<string>,
    backlinks: seq<DataForSeo.BacklinksResult>, onPage: seq<DataForSeo.OnPageResult>,
    results: seq<DataForSeo.SerpResult>, id: string, createdAt: int): Outcome
    requires |keywords| > 0
  {
    if |backlinks| == 0 then Outcome(Err(NoPracticeBacklinks), 6)
    else if |onPage| == 0 then Outcome(Err(NoPracticeOnPage), 6)
    else
      var practice := PracticeRecord(request, practiceDomain, backlinks[0], onPage[0], PracticeRankings(results, practiceDomain));
      var competitors := AssembleCompetitors(found.domains, found.names, backlinks, onPage, CompetitorRankingsOf(found.domains, results));
      Outcome(Ok(AnalysisReport(
        id, request.practiceName, request.websiteUrl, createdAt, practice, competitors,
        ScoresOf(practice, competitors, keywords),
        GenerateRecommendations(practice, competitors),
        KeywordComparisons(keywords, practice, competitors))), 7)
  }

  /** What `analyze` gives and how far its progress reports get. */
  function Analysis(request: AnalysisRequest, places: PlacesApi, seo: SeoApi, id: string, createdAt: int): (o: Outcome)
    ensures 1 <= o.reported <= |Progress|
    ensures o.result.Ok? ==> o.reported == |Progress|
  {
    var practiceDomain := GooglePlaces.ExtractDomain(request.websiteUrl);
    match Discover(request, places)
    case Err(e) => Outcome(Err(e), 1)
    case Ok(found) =>
      var keywords := KeywordsFor(CityOf(request));
      var allDomains := [practiceDomain] + found.domains;
      match DataForSeo.GetMultipleBacklinks(allDomains, seo.backlinks(allDomains))
      case Err(e) => Outcome(Err(e), 2)
      case Ok(backlinks) =>
        var allUrls := [request.websiteUrl] + HomePages(found.domains);
        match DataForSeo.GetMultipleOnPageAnalysis(allUrls, seo.onPage(allUrls))
        case Err(e) => Outcome(Err(e), 3)
        case Ok(onPage) =>
          match DataForSeo.GetMultipleKeywordRankings(keywords, seo.serp(keywords))
          case Err(e) => Outcome(Err(e), 4)
          case Ok(results) => Assemble(request, practiceDomain, found, keywords, backlinks, onPage, results, id, createdAt)
  }

  /**
   * `analyze`: reports progress, finds the competitors, queries the providers
   * for every domain and keyword, reconciles the rankings and builds the report.
   * A provider error ends the run with that error after the reports made so far.
   */
  method Analyze(request: AnalysisRequest, places: PlacesApi, seo: SeoApi, id: string, createdAt: int)
    returns (r: Result<AnalysisReport>, log: seq<ProgressStep>)
    ensures var o := Analysis(request, places, seo, id, createdAt);
      r == o.result && log == Progress[..o.reported]
  {
    var practiceDomain := GooglePlaces.ExtractDomain(request.websiteUrl);
    log := Progress[..1];
    var discovered := FindCompetitors(request, places);
    if discovered.Err? {
      r := Err(discovered.message);
      return;
    }
    var found := discovered.value;
    var keywords := KeywordsFor(CityOf(request));

    log := Progress[..2];
    var allDomains := [practiceDomain] + found.domains;
    var backlinksData := DataForSeo.GetMultipleBacklinks(allDomains, seo.backlinks(allDomains));
    if backlinksData.Err? {
      r := Err(backlinksData.message);
      return;
    }

    log := Progress[..3];
    var allUrls := [request.websiteUrl] + HomePages(found.domains);
    var onPageData := DataForSeo.GetMultipleOnPageAnalysis(allUrls, seo.onPage(allUrls));
    if onPageData.Err? {
      r := Err(onPageData.message);
      return;
    }

    log := Progress[..4];
    var keywordResults := DataForSeo.GetMultipleKeywordRankings(keywords, seo.serp(keywords));
    if keywordResults.Err? {
      r := Err(keywordResults.message);
      return;
    }

    r, log := BuildReport(request, practiceDomain, found, keywords, backlinksData.value, onPageData.value, keywordResults.value, id, createdAt);
  }

  /** Steps 5 to 7 of `analyze`: reconcile the rankings, check the batch results, and build the report. */
  method BuildReport(
    request: AnalysisRequest, practiceDomain: string, found: Discovery, keywords: seq<string>,
    backlinks: seq<DataForSeo.BacklinksResult>, onPage: seq<DataForSeo.OnPageResult>,
    results: seq<DataForSeo.SerpResult>, id: string, createdAt: int)
    returns (r: Result<AnalysisReport>, log: seq<ProgressStep>)
    requires |keywords| > 0
    ensures var o := Assemble(request, practiceDomain, found, keywords, backlinks, onPage, results, id, createdAt);
      r == o.result && log == Progress[..o.reported]
  {
    log := Progress[..5];
    var practiceRankings, competitorRankingsMap := ReconcileRankings(practiceDomain, found.domains, results);
    assert competitorRankingsMap == CompetitorRankingsOf(found.domains, results);

    log := Progress[..6];
    if |backlinks| == 0 {
      r := Err(NoPracticeBacklinks);
      return;
    }
    if |onPage| == 0 {
      r := Err(NoPracticeOnPage);
      return;
    }
    var practiceData := PracticeRecord(request, practiceDomain, backlinks[0], onPage[0], practiceRankings);
    var competitorsData := AssembleCompetitors(found.domains, found.names, backlinks, onPage, competitorRankingsMap);

    var scores := CalculateScores(practiceData, competitorsData, keywords);
    var recommendations := GenerateRecommendations(practiceData, competitorsData);
    var keywordComparisons := BuildKeywordComparisons(keywords, practiceData, competitorsData);

    log := Progress[..7];
    r := Ok(AnalysisReport(id, request.practiceName, request.websiteUrl, createdAt, practiceData, competitorsData,
                           scores, recommendations, keywordComparisons));
  }

  /** Step 1 of `analyze`: the manual list, or the practices the Places search finds. */
  method FindCompetitors(request: AnalysisRequest, places: PlacesApi) returns (r: Result<Discovery>)
    ensures r == Discover(request, places)
  {
    if ManualMode(request) {
      var domains := DomainsOf(request.manualCompetitors.value);
      r := Ok(Discovery(domains, ManualNames(domains)));
    } else {
      var geo := GooglePlaces.GeocodeAddress(places.apiKey, request.address, places.geocoder);
      if geo.Err? {
        r := Err(geo.message);
        return;
      }
      var competitors, _ := GooglePlaces.FindDentalCompetitors(places.apiKey, NearbyAround(places, geo.value), places.details);
      if competitors.Err? {
        r := Err(competitors.message);
        return;
      }
      r := Ok(Discovery(AutoDomains(competitors.value), AutoNames(competitors.value)));
    }
  }

  /** In manual mode the Google endpoints are never consulted. */
  lemma ManualModeSkipsPlaces(request: AnalysisRequest, places1: PlacesApi, places2: PlacesApi, seo: SeoApi, id: string, createdAt: int)
    requires ManualMode(request)
    ensures Analysis(request, places1, seo, id, createdAt) == Analysis(request, places2, seo, id, createdAt)
  {
    assert Discover(request, places1) == Discover(request, places2);
  }

  /** Automatic discovery without a Places key fails at the first step. */
  lemma AutoModeNeedsKey(request: AnalysisRequest, places: PlacesApi, seo: SeoApi, id: string, createdAt: int)
    requires !ManualMode(request) && places.apiKey == ""
    ensures Analysis(request, places, seo, id, createdAt) == Outcome(Err(GooglePlaces.KeyMissing), 1)
  {
    assert Discover(request, places) == Err(GooglePlaces.KeyMissing);
  }

  /** The steps of an analysis that gets to the end. */
  lemma CompletedAnalysis(request: AnalysisRequest, places: PlacesApi, seo: SeoApi, id: string, createdAt: int)
    returns (found: Discovery, backlinks: seq<DataForSeo.BacklinksResult>, onPage: seq<DataForSeo.OnPageResult>, results: seq<DataForSeo.SerpResult>)
    requires Analysis(request, places, seo, id, createdAt).result.Ok?
    ensures Discover(request, places) == Ok(found)
    ensures |backlinks| > 0 && |onPage| > 0
    ensures Analysis(request, places, seo, id, createdAt)
         == Assemble(request, GooglePlaces.ExtractDomain(request.websiteUrl), found, KeywordsFor(CityOf(request)), backlinks, onPage, results, id, createdAt)
  {
    var practiceDomain := GooglePlaces.ExtractDomain(request.websiteUrl);
    found := Discover(request, places).value;
    var keywords := KeywordsFor(CityOf(request));
    var allDomains := [practiceDomain] + found.domains;
    backlinks := DataForSeo.GetMultipleBacklinks(allDomains, seo.backlinks(allDomains)).value;
    var allUrls := [request.websiteUrl] + HomePages(found.domains);
    onPage := DataForSeo.GetMultipleOnPageAnalysis(allUrls, seo.onPage(allUrls)).value;
    results := DataForSeo.GetMultipleKeywordRankings(keywords, seo.serp(keywords)).value;
  }

  /** The report put together from the providers' answers. */
  lemma AssembledShape(
    request: AnalysisRequest, practiceDomain: string, found: Discovery, keywords: seq<string>,
    backlinks: seq<DataForSeo.BacklinksResult>, onPage: seq<DataForSeo.OnPageResult>,
    results: seq<DataForSeo.SerpResult>, id: string, createdAt: int)
    requires |keywords| > 0 && |backlinks| > 0 && |onPage| > 0
    ensures var o := Assemble(request, practiceDomain, found, keywords, backlinks, onPage, results, id, createdAt);
      && o.result.Ok?
      && var report := o.result.value;
      && report.id == id && report.createdAt == createdAt
      && report.practiceName == request.practiceName && report.practiceWebsite == request.websiteUrl
      && report.practiceData.domain == practiceDomain
      && |report.competitors| == |found.domains|
      && (forall i :: 0 <= i < |report.competitors| ==>
            report.competitors[i].domain == found.domains[i]
            && report.competitors[i].website == "https://" + found.domains[i])
      && |report.keywordData| == |keywords|
      && (forall i :: 0 <= i < |report.keywordData| ==> report.keywordData[i].keyword == keywords[i])
      && |report.recommendations| <= 5
      && StableSort.SortedBy(report.recommendations, PriorityKey)
      && 0 <= report.scores.keywords <= 100
  {
    var practice := PracticeRecord(request, practiceDomain, backlinks[0], onPage[0], PracticeRankings(results, practiceDomain));
    var competitors := AssembleCompetitors(found.domains, found.names, backlinks, onPage, CompetitorRankingsOf(found.domains, results));
    var scores := ScoresOf(practice, competitors, keywords);
    var recs := GenerateRecommendations(practice, competitors);
    var rows := KeywordComparisons(keywords, practice, competitors);
    var report := AnalysisReport(id, request.practiceName, request.websiteUrl, createdAt, practice, competitors, scores, recs, rows);
    assert Assemble(request, practiceDomain, found, keywords, backlinks, onPage, results, id, createdAt) == Outcome(Ok(report), 7);
    ScoresBounded(practice, competitors, keywords);
    assert forall i :: 0 <= i < |rows| ==> rows[i].keyword == keywords[i] by {
      forall i | 0 <= i < |rows| ensures rows[i].keyword == keywords[i] {
        assert rows[i] == ComparisonOf(keywords[i], practice, competitors);
      }
    }
  }

  /**
   * A finished report describes the requested practice, has one competitor per
   * discovered domain, one keyword row per tracked keyword in keyword order, at
   * most five recommendations in priority order and a keyword score in [0, 100].
   */
  lemma ReportShape(request: AnalysisRequest, places: PlacesApi, seo: SeoApi, id: string, createdAt: int)
    requires Analysis(request, places, seo, id, createdAt).result.Ok?
    ensures var report := Analysis(request, places, seo, id, createdAt).result.value;
      var keywords := KeywordsFor(CityOf(request));
      && report.id == id && report.createdAt == createdAt
      && report.practiceName == request.practiceName && report.practiceWebsite == request.websiteUrl
      && report.practiceData.domain == GooglePlaces.ExtractDomain(request.websiteUrl)
      && |report.competitors| == |Discover(request, places).value.domains|
      && (forall i :: 0 <= i < |report.competitors| ==>
            report.competitors[i].domain == Discover(request, places).value.domains[i]
            && report.competitors[i].website == "https://" + report.competitors[i].domain)
      && |report.keywordData| == |DentalKeywords|
      && (forall i :: 0 <= i < |report.keywordData| ==> report.keywordData[i].keyword == keywords[i])
      && |report.recommendations| <= 5
      && StableSort.SortedBy(report.recommendations, PriorityKey)
      && 0 <= report.scores.keywords <= 100
  {
    var found, backlinks, onPage, results := CompletedAnalysis(request, places, seo, id, createdAt);
    AssembledShape(request, GooglePlaces.ExtractDomain(request.websiteUrl), found, KeywordsFor(CityOf(request)), backlinks, onPage, results, id, createdAt);
  }

  /** In manual mode the competitors are the listed URLs' domains, in order, each named after its domain. */
  lemma ManualCompetitorsFollowList(request: AnalysisRequest, places: PlacesApi, seo: SeoApi, id: string, createdAt: int)
    requires ManualMode(request)
    requires Analysis(request, places, seo, id, createdAt).result.Ok?
    ensures var report := Analysis(request, places, seo, id, createdAt).result.value;
      var urls := request.manualCompetitors.value;
      && |report.competitors| == |urls|
      && forall i :: 0 <= i < |urls| ==>
           report.competitors[i].domain == GooglePlaces.ExtractDomain(urls[i])
           && report.competitors[i].name == report.competitors[i].domain
  {
    var found, backlinks, onPage, results := CompletedAnalysis(request, places, seo, id, createdAt);
    var domains := DomainsOf(request.manualCompetitors.value);
    assert found.domains == domains;
    var report := Analysis(request, places, seo, id, createdAt).result.value;
    forall i | 0 <= i < |domains|
      ensures report.competitors[i].name == report.competitors[i].domain
    {
      assert report.competitors[i] == CompetitorRecord(domains[i], i, found.names, backlinks, onPage, CompetitorRankingsOf(found.domains, results));
      assert domains[i] in found.names;
    }
  }
}

/**
 * The analysis steps of the Python backend's `run_analysis`
 * (backend/src/app.py): the keyword list, the city taken from the address,
 * the folding of the search results into keyword → position maps, the
 * competitor records, the scores, the keyword table and its summary.
 *
 * The scores are computed in exact integer arithmetic where Python
 * computes in doubles: `int((total / max) * 100)` becomes `total / n` and
 * `int(0.4 k + 0.3 b + 0.3 t)` becomes `(4 k + 3 b + 3 t) / 10`. At an exact
 * boundary the double can fall just below the integer, so the source may
 * give one less than the model. `int(x)` truncates toward zero.
 */
module FlaskAnalysis {
  import opened Wrappers
  import opened Text
  import Seqs
  import StableSort
  import P = FlaskProviders

  // ---------------------------------------------------------------------------
  // Keywords and city
  // ---------------------------------------------------------------------------

  /** The tracked search phrases; `{city}` is filled in per analysis. */
  const SearchKeywords: seq<string> := [
    "dentist near me",
    "dental office near me",
    "local dentist",
    InCity + CityMark,
    "emergency dentist near me",
    "walk-in dentist",
    "dentist open on weekends",
    "tooth pain relief",
    "affordable dentist near me",
    "family dentist near me",
    "pediatric dentist near me",
    "cosmetic dentist near me",
    "dental implant dentist",
    "teeth whitening",
    "teeth cleaning",
    "root canal",
    "dental emergency dentist near me",
    "children's dentist",
    "best dentist near me",
    BestInCity + CityMark
  ]

  const CityMark: string := "{city}"
  const InCity: string := "dentist in "
  const BestInCity: string := "best dentist in "

  /** The keyword list of an analysis: every `{city}` of every template replaced. */
  function KeywordsFor(city: string): (ks: seq<string>)
    ensures |ks| == |SearchKeywords|
  {
    seq(|SearchKeywords|, i requires 0 <= i < |SearchKeywords| => ReplaceAll(SearchKeywords[i], CityMark, city))
  }

  /** Replacing in `p + pat`, where `p` cannot start an occurrence, replaces just the tail. */
  lemma {:induction false} ReplaceTail(p: string, pat: string, rep: string)
    requires pat != [] && pat[0] !in p
    ensures ReplaceAll(p + pat, pat, rep) == p + rep
    decreases |p|
  {
    var s := p + pat;
    if p == [] {
      assert s == pat && s[|pat|..] == [];
      assert ReplaceAll(s, pat, rep) == rep + ReplaceAll([], pat, rep);
    } else {
      assert s[..|pat|][0] == s[0] == p[0] != pat[0];
      assert ReplaceAll(s, pat, rep) == [p[0]] + ReplaceAll(s[1..], pat, rep);
      assert s[1..] == p[1..] + pat;
      ReplaceTail(p[1..], pat, rep);
      assert p == [p[0]] + p[1..];
    }
  }

  /** A template made of a brace-free prefix and `{city}` becomes the prefix and the city. */
  lemma CityKeyword(city: string, i: nat, prefix: string)
    requires i < |SearchKeywords| && SearchKeywords[i] == prefix + CityMark && '{' !in prefix
    ensures KeywordsFor(city)[i] == prefix + city
  {
    ReplaceTail(prefix, CityMark, city);
  }

  /** The two `{city}` templates end in the city. */
  lemma CityKeywords(city: string)
    ensures KeywordsFor(city)[3] == "dentist in " + city
    ensures KeywordsFor(city)[19] == "best dentist in " + city
  {
    CityKeyword(city, 3, InCity);
    CityKeyword(city, 19, BestInCity);
  }

  /** A template without a brace is kept as it is, whatever the city. */
  lemma FixedKeyword(city: string, i: nat)
    requires i < |SearchKeywords| && '{' !in SearchKeywords[i]
    ensures KeywordsFor(city)[i] == SearchKeywords[i]
  {
    MissingFirstChar(SearchKeywords[i], CityMark);
    ReplaceAllAbsent(SearchKeywords[i], CityMark, city);
  }

  /** A state code: two characters, at least one upper-case letter and no lower-case one. */
  predicate IsStateCode(word: string) {
    |word| == 2 && IsUpperWord(word)
  }

  /** More than one word, the last of them a state code. */
  predicate EndsInStateCode(words: seq<string>) {
    |words| > 1 && IsStateCode(words[|words| - 1])
  }

  /**
   * Drops a trailing state code from a city of more than one word, re-joining
   * the other words with single spaces; a city that does not end in a state
   * code is kept as it is.
   */
  function DropStateCode(city: string): (r: string)
    ensures !EndsInStateCode(SplitWords(city)) ==> r == city
    ensures EndsInStateCode(SplitWords(city)) ==> r == JoinWords(SplitWords(city)[..|SplitWords(city)| - 1])
  {
    var words := SplitWords(city);
    if EndsInStateCode(words) then JoinWords(words[..|words| - 1]) else city
  }

  /** A trailing state code is always dropped, and exactly the last word is gone: the other words are unchanged. */
  lemma StateCodeDropped(city: string)
    requires EndsInStateCode(SplitWords(city))
    ensures SplitWords(DropStateCode(city)) == SplitWords(city)[..|SplitWords(city)| - 1]
  {
    var words := SplitWords(city);
    assert DropStateCode(city) == JoinWords(words[..|words| - 1]);
    DropLastWord(words);
  }

  /** Joining all words but the last and splitting again gives back those words. */
  lemma DropLastWord(words: seq<string>)
    requires |words| > 1 && forall k :: 0 <= k < |words| ==> IsWord(words[k])
    ensures SplitWords(JoinWords(words[..|words| - 1])) == words[..|words| - 1]
  {
    var kept := words[..|words| - 1];
    assert forall k :: 0 <= k < |kept| ==> kept[k] == words[k];
    SplitWordsJoin(kept);
  }

  /**
   * The city of the keywords: the second comma-separated part of the address,
   * stripped, without a trailing state code; with no comma, the stripped
   * address.
   */
  function ExtractCity(address: string): (city: string)
    ensures ',' !in address ==> city == Trim(Trim(address))
  {
    var parts := Split(address, ',');
    if |parts| >= 2 then DropStateCode(Trim(Trim(parts[1])))
    else
      assert ',' !in address ==> parts == [address] by {
        if ',' !in address { SplitJoin([address], ','); }
      }
      Trim(Trim(parts[0]))
  }

  /** For an address made of comma-free parts, the city comes from the second part, whatever follows it. */
  lemma CityOfParts(parts: seq<string>)
    requires |parts| >= 2
    requires forall i :: 0 <= i < |parts| ==> ',' !in parts[i]
    ensures ExtractCity(Join(parts, ',')) == DropStateCode(Trim(Trim(parts[1])))
  {
    SplitJoin(parts, ',');
  }

  // ---------------------------------------------------------------------------
  // Rankings
  // ---------------------------------------------------------------------------

  /** A keyword → position map; a position may be None. */
  type RankMap = map<string, Option<int>>

  /** `m.get(keyword)`. */
  function Lookup(m: RankMap, keyword: string): Option<int> {
    if keyword in m then m[keyword] else None
  }

  /** One organic result of one keyword's search. */
  datatype Entry = Entry(keyword: string, position: Option<int>, domain: string)

  function EntriesOf(r: P.KeywordResult): (es: seq<Entry>)
    ensures |es| == |r.rankings|
    ensures forall i :: 0 <= i < |es| ==> es[i] == Entry(r.keyword, r.rankings[i].position, r.rankings[i].domain)
  {
    seq(|r.rankings|, i requires 0 <= i < |r.rankings| => Entry(r.keyword, r.rankings[i].position, r.rankings[i].domain))
  }

  /** The results of all keywords, keyword by keyword, each in result order. */
  function Flatten(results: seq<P.KeywordResult>): seq<Entry> {
    if results == [] then [] else Flatten(results[..|results| - 1]) + EntriesOf(results[|results| - 1])
  }

  /** The keyword → position map of the entries whose domain is `domain`; a later entry overwrites an earlier one. */
  function RankMapOf(entries: seq<Entry>, domain: Option<string>): RankMap {
    if entries == [] then map[]
    else
      var m := RankMapOf(entries[..|entries| - 1], domain);
      var e := entries[|entries| - 1];
      if domain == Some(e.domain) then m[e.keyword := e.position] else m
  }

  /**
   * The competitor maps: one per competitor domain; empty for a domain that
   * is also the practice's, whose results go to the practice.
   */
  function CompetitorMaps(entries: seq<Entry>, practiceDomain: Option<string>, domains: seq<string>): (ms: map<string, RankMap>)
    ensures ms.Keys == set d | d in domains
  {
    map d | d in domains :: if practiceDomain == Some(d) then map[] else RankMapOf(entries, Some(d))
  }

  /** A keyword is in a domain's map exactly when some entry of that domain is for it. */
  lemma {:induction false} RankMapKeys(entries: seq<Entry>, domain: Option<string>, k: string)
    ensures k in RankMapOf(entries, domain) <==>
      exists i :: 0 <= i < |entries| && domain == Some(entries[i].domain) && entries[i].keyword == k
    decreases |entries|
  {
    if entries != [] {
      var init := entries[..|entries| - 1];
      RankMapKeys(init, domain, k);
      assert forall i :: 0 <= i < |init| ==> init[i] == entries[i];
    }
  }

  /** The position kept for a keyword is that of the domain's last entry for it. */
  lemma {:induction false} RankMapLast(entries: seq<Entry>, domain: Option<string>, i: nat)
    requires i < |entries| && domain == Some(entries[i].domain)
    requires forall j :: i < j < |entries| ==> !(domain == Some(entries[j].domain) && entries[j].keyword == entries[i].keyword)
    ensures entries[i].keyword in RankMapOf(entries, domain)
    ensures RankMapOf(entries, domain)[entries[i].keyword] == entries[i].position
    decreases |entries|
  {
    var init := entries[..|entries| - 1];
    if i < |entries| - 1 {
      assert init[i] == entries[i];
      RankMapLast(init, domain, i);
    }
  }

  lemma FlattenStep(results: seq<P.KeywordResult>, i: nat)
    requires i < |results|
    ensures Flatten(results[..i + 1]) == Flatten(results[..i]) + EntriesOf(results[i])
  {
    assert results[..i + 1][..i] == results[..i];
  }

  lemma RankMapStep(entries: seq<Entry>, e: Entry, domain: Option<string>)
    ensures RankMapOf(entries + [e], domain) == if domain == Some(e.domain) then RankMapOf(entries, domain)[e.keyword := e.position] else RankMapOf(entries, domain)
  {
    assert (entries + [e])[..|entries|] == entries;
  }

  /** The competitor maps as the loop holds them after the entries `entries`. */
  predicate MapsFollow(competitors: map<string, RankMap>, entries: seq<Entry>, practiceDomain: Option<string>, domains: seq<string>) {
    && competitors.Keys == (set d | d in domains)
    && forall d :: d in competitors ==>
         competitors[d] == if practiceDomain == Some(d) then map[] else RankMapOf(entries, Some(d))
  }

  /** Before any entry every competitor map is empty. */
  lemma MapsStart(practiceDomain: Option<string>, domains: seq<string>)
    ensures MapsFollow(map d | d in domains :: map[], [], practiceDomain, domains)
  {
  }

  /** After all entries the loop's maps are the competitor maps. */
  lemma MapsEnd(competitors: map<string, RankMap>, entries: seq<Entry>, practiceDomain: Option<string>, domains: seq<string>)
    requires MapsFollow(competitors, entries, practiceDomain, domains)
    ensures competitors == CompetitorMaps(entries, practiceDomain, domains)
  {
  }

  /** One more entry: the competitor map of its domain takes it, unless the domain is the practice's. */
  lemma MapsStep(competitors: map<string, RankMap>, entries: seq<Entry>, e: Entry, practiceDomain: Option<string>, domains: seq<string>)
    requires MapsFollow(competitors, entries, practiceDomain, domains)
    ensures MapsFollow(
      if Some(e.domain) == practiceDomain || e.domain !in competitors then competitors
      else competitors[e.domain := competitors[e.domain][e.keyword := e.position]],
      entries + [e], practiceDomain, domains)
  {
    forall d | d in competitors {
      RankMapStep(entries, e, Some(d));
    }
  }

  /**
   * The rankings loop of `run_analysis`: a result of the practice's domain
   * goes to the practice's map; otherwise a result of a competitor domain
   * goes to that competitor's map.
   */
  method ProcessRankings(results: seq<P.KeywordResult>, practiceDomain: Option<string>, domains: seq<string>)
    returns (practice: RankMap, competitors: map<string, RankMap>)
    ensures practice == RankMapOf(Flatten(results), practiceDomain)
    ensures competitors == CompetitorMaps(Flatten(results), practiceDomain, domains)
  {
    practice := map[];
    competitors := map d | d in domains :: map[];
    MapsStart(practiceDomain, domains);
    var i := 0;
    while i < |results|
      invariant 0 <= i <= |results|
      invariant practice == RankMapOf(Flatten(results[..i]), practiceDomain)
      invariant MapsFollow(competitors, Flatten(results[..i]), practiceDomain, domains)
    {
      FlattenStep(results, i);
      practice, competitors := ProcessResult(results[i], Flatten(results[..i]), practice, competitors, practiceDomain, domains);
      i := i + 1;
    }
    assert results[..i] == results;
    MapsEnd(competitors, Flatten(results), practiceDomain, domains);
  }

  /** The inner loop of the rankings: the organic results of one keyword, in order. */
  method ProcessResult(result: P.KeywordResult, done: seq<Entry>, practice0: RankMap, competitors0: map<string, RankMap>,
                       practiceDomain: Option<string>, domains: seq<string>)
    returns (practice: RankMap, competitors: map<string, RankMap>)
    requires practice0 == RankMapOf(done, practiceDomain)
    requires MapsFollow(competitors0, done, practiceDomain, domains)
    ensures practice == RankMapOf(done + EntriesOf(result), practiceDomain)
    ensures MapsFollow(competitors, done + EntriesOf(result), practiceDomain, domains)
  {
    practice, competitors := practice0, competitors0;
    var es := EntriesOf(result);
    var j := 0;
    assert done + es[..0] == done;
    while j < |result.rankings|
      invariant 0 <= j <= |result.rankings|
      invariant practice == RankMapOf(done + es[..j], practiceDomain)
      invariant MapsFollow(competitors, done + es[..j], practiceDomain, domains)
    {
      var ranking := result.rankings[j];
      var e := es[j];
      assert done + es[..j + 1] == (done + es[..j]) + [e];
      RankMapStep(done + es[..j], e, practiceDomain);
      MapsStep(competitors, done + es[..j], e, practiceDomain, domains);
      if Some(ranking.domain) == practiceDomain {
        practice := practice[result.keyword := ranking.position];
      } else if ranking.domain in competitors {
        competitors := competitors[ranking.domain := competitors[ranking.domain][result.keyword := ranking.position]];
      }
      j := j + 1;
    }
    assert es[..j] == es;
  }

  // ---------------------------------------------------------------------------
  // Records
  // ---------------------------------------------------------------------------

  /** A practice's or competitor's record in the report. */
  datatype PyRecord = PyRecord(
    name: Option<string>,
    domain: Option<string>,
    website: string,
    backlinks: P.Backlinks,
    onPage: P.OnPage,
    rankings: RankMap,
    rating: Option<int>,
    reviewCount: int)

  /** The placeholders used when the batch lists hold nothing at a position. */
  const NoBacklinks: P.Backlinks := P.Backlinks(None, 0, 0, 0)
  const NoOnPage: P.OnPage := P.OnPage(None, 0.0, "", None)

  /** `f"https://{d}"`: a missing domain prints as `None`. */
  function HomePage(d: Option<string>): string {
    "https://" + (if d.Some? then d.value else "None")
  }

  /** A manually listed competitor: named after its domain, no address, rating or reviews. */
  function ManualCandidate(url: string): (c: P.Candidate)
    ensures c.domain == P.ExtractDomain(Some(url)) && c.name == c.domain && c.website == HomePage(c.domain)
    ensures c.rating.None? && c.reviewCount == 0
  {
    var d := P.ExtractDomain(Some(url));
    P.Candidate(d, "", HomePage(d), d, None, 0)
  }

  function ManualCandidates(urls: seq<string>): (cs: seq<P.Candidate>)
    ensures |cs| == |urls| && forall i :: 0 <= i < |urls| ==> cs[i] == ManualCandidate(urls[i])
  {
    seq(|urls|, i requires 0 <= i < |urls| => ManualCandidate(urls[i]))
  }

  /** `c.get('domain')` is truthy. */
  predicate HasDomain(c: P.Candidate) {
    Truthy(c.domain)
  }

  /** `competitor_domains`: the non-empty domains of the competitors, in order. */
  function CompetitorDomains(cs: seq<P.Candidate>): (ds: seq<string>)
    ensures var kept := Seqs.Filter(cs, HasDomain);
      |ds| == |kept| && forall i :: 0 <= i < |ds| ==> Some(ds[i]) == kept[i].domain && ds[i] != ""
  {
    var kept := Seqs.Filter(cs, HasDomain);
    seq(|kept|, i requires 0 <= i < |kept| => kept[i].domain.value)
  }

  /** The homepage of each domain, queued behind the practice's own URL for the on-page batch. */
  function HomePages(domains: seq<string>): (urls: seq<string>)
    ensures |urls| == |domains| && forall i :: 0 <= i < |domains| ==> urls[i] == "https://" + domains[i]
  {
    seq(|domains|, i requires 0 <= i < |domains| => "https://" + domains[i])
  }

  /** The practice's record: the first entries of the batch lists, or the placeholders. */
  function PracticeRecord(
    practiceName: string, practiceDomain: Option<string>, websiteUrl: string,
    backlinks: seq<P.Backlinks>, onPage: seq<P.OnPage>, rankings: RankMap, reviews: P.PracticeReviews): PyRecord
  {
    PyRecord(Some(practiceName), practiceDomain, websiteUrl,
      if |backlinks| > 0 then backlinks[0] else NoBacklinks,
      if |onPage| > 0 then onPage[0] else NoOnPage,
      rankings, reviews.rating, reviews.reviewCount)
  }

  /** The record of the `i`-th competitor: the batch entries at position `i + 1`, or the placeholders. */
  function CompetitorRecord(
    i: nat, c: P.Candidate, backlinks: seq<P.Backlinks>, onPage: seq<P.OnPage>, maps: map<string, RankMap>): PyRecord
  {
    PyRecord(c.name, c.domain, c.website,
      if i + 1 < |backlinks| then backlinks[i + 1] else NoBacklinks,
      if i + 1 < |onPage| then onPage[i + 1] else NoOnPage,
      if c.domain.Some? && c.domain.value in maps then maps[c.domain.value] else map[],
      c.rating, c.reviewCount)
  }

  /**
   * The competitor records as `run_analysis` builds them: the `i`-th of ALL
   * competitors takes the batch entries at `i + 1`, although the batches were
   * requested for the competitors WITH a domain only.
   */
  function RecordsAsWritten(
    cs: seq<P.Candidate>, backlinks: seq<P.Backlinks>, onPage: seq<P.OnPage>, maps: map<string, RankMap>): (rs: seq<PyRecord>)
    ensures |rs| == |cs|
    ensures forall i :: 0 <= i < |cs| ==> rs[i] == CompetitorRecord(i, cs[i], backlinks, onPage, maps)
  {
    seq(|cs|, i requires 0 <= i < |cs| => CompetitorRecord(i, cs[i], backlinks, onPage, maps))
  }

  /** The competitor records with the batches' order: only the competitors that have a domain. */
  function AssembleCompetitors(
    cs: seq<P.Candidate>, backlinks: seq<P.Backlinks>, onPage: seq<P.OnPage>, maps: map<string, RankMap>): seq<PyRecord>
  {
    RecordsAsWritten(Seqs.Filter(cs, HasDomain), backlinks, onPage, maps)
  }

  /**
   * When every competitor has a domain the records as written are the
   * corrected ones: the misalignment needs a competitor without a domain.
   */
  lemma AsWrittenWhenAllHaveDomains(
    cs: seq<P.Candidate>, backlinks: seq<P.Backlinks>, onPage: seq<P.OnPage>, maps: map<string, RankMap>)
    requires forall i :: 0 <= i < |cs| ==> HasDomain(cs[i])
    ensures RecordsAsWritten(cs, backlinks, onPage, maps) == AssembleCompetitors(cs, backlinks, onPage, maps)
  {
    Seqs.FilterAll(cs, HasDomain);
  }

  /** `b.com` is its own key. */
  lemma BComKey()
    ensures P.ExtractDomain(Some("b.com")) == Some("b.com")
  {
    var host := "b.com";
    assert 'w' !in host;
    MissingFirstChar(host, "www.");
    assert host[0] == 'b' && !StartsWith(host, "http");
    P.BareHostKey(host);
  }

  /**
   * With the manual list `["", "b.com"]` the first competitor has no domain,
   * yet it is given the backlinks fetched for `b.com`, and `b.com` is given
   * the placeholder.
   */
  lemma MisalignedAsWritten(practiceDomain: string, fetch: string -> P.TaskReply<P.BacklinksFigures>)
    ensures var cs := ManualCandidates(["", "b.com"]);
      var backlinks := P.BacklinksSummary([practiceDomain] + CompetitorDomains(cs), fetch);
      var rs := RecordsAsWritten(cs, backlinks, [], map[]);
      && rs[0].domain.None? && rs[0].backlinks.domain == Some("b.com")
      && rs[1].domain == Some("b.com") && rs[1].backlinks == NoBacklinks
  {
    var cs := ManualCandidates(["", "b.com"]);
    BComKey();
    assert cs[0].domain.None? && cs[1].domain == Some("b.com");
    assert Seqs.Filter(cs, HasDomain) == [cs[1]] by {
      assert cs[1..][1..] == [];
    }
    assert CompetitorDomains(cs) == ["b.com"];
  }

  /**
   * Every corrected record carries its own domain's figures: its backlinks
   * are those fetched for its domain, and its on-page entry, when there is
   * one, is that of its own homepage.
   */
  lemma RecordsAligned(
    cs: seq<P.Candidate>, practiceDomain: string, websiteUrl: string,
    fetch: string -> P.TaskReply<P.BacklinksFigures>, reply: P.OnPageReply, maps: map<string, RankMap>)
    requires P.OnPageAnalysis([websiteUrl] + HomePages(CompetitorDomains(cs)), reply).Ok?
    ensures var domains := CompetitorDomains(cs);
      var backlinks := P.BacklinksSummary([practiceDomain] + domains, fetch);
      var onPage := P.OnPageAnalysis([websiteUrl] + HomePages(domains), reply).value;
      var rs := AssembleCompetitors(cs, backlinks, onPage, maps);
      && |rs| == |domains|
      && forall i :: 0 <= i < |rs| ==>
           && rs[i].domain == Some(domains[i])
           && rs[i].backlinks == P.BacklinksOf(domains[i], fetch(domains[i]))
           && rs[i].backlinks.domain == rs[i].domain
           && (i + 1 < |onPage| ==> rs[i].onPage.url == Some("https://" + domains[i]))
  {
    var domains := CompetitorDomains(cs);
    var urls := [websiteUrl] + HomePages(domains);
    var backlinks := P.BacklinksSummary([practiceDomain] + domains, fetch);
    var onPage := P.OnPageAnalysis(urls, reply).value;
    var kept := Seqs.Filter(cs, HasDomain);
    forall i | 0 <= i < |kept|
      ensures var r := CompetitorRecord(i, kept[i], backlinks, onPage, maps);
        && r.domain == Some(domains[i])
        && r.backlinks == P.BacklinksOf(domains[i], fetch(domains[i]))
        && (i + 1 < |onPage| ==> r.onPage.url == Some("https://" + domains[i]))
    {
      assert ([practiceDomain] + domains)[i + 1] == domains[i];
      assert urls[i + 1] == "https://" + domains[i];
    }
  }

  // ---------------------------------------------------------------------------
  // Scores (`calculate_scores`)
  // ---------------------------------------------------------------------------

  datatype Scores = Scores(overall: int, keywords: int, backlinks: int, technical: int)

  /** `int(a / b)` for a positive `b`: the quotient truncated toward zero. */
  function TruncDiv(a: int, b: int): (q: int)
    requires b > 0
    ensures a >= 0 ==> q == a / b
    ensures a < 0 ==> q == -((-a) / b)
  {
    if a >= 0 then a / b else -((-a) / b)
  }

  /** `int(x)`: truncation toward zero. */
  function TruncReal(x: real): (n: int)
    ensures x >= 0.0 ==> n as real <= x < n as real + 1.0
    ensures x < 0.0 ==> n as real - 1.0 < x <= n as real
  {
    if x >= 0.0 then x.Floor else -((-x).Floor)
  }

  /** The points of one position: 100 in the top 3, 70 in the top 10, 40 in the top 20, 10 beyond; none without a (non-zero) position. */
  function KeywordPoints(rank: Option<int>): (points: int)
    ensures points == 0 <==> rank.None? || rank.value == 0
    ensures 0 <= points <= 100
    ensures points == 100 <==> rank.Some? && rank.value != 0 && rank.value <= 3
  {
    match rank
    case None => 0
    case Some(r) =>
      if r == 0 then 0
      else if r <= 3 then 100
      else if r <= 10 then 70
      else if r <= 20 then 40
      else 10
  }

  function KeywordTotal(rankings: RankMap, keywords: seq<string>): (total: int)
    ensures 0 <= total <= 100 * |keywords|
  {
    if keywords == [] then 0
    else KeywordTotal(rankings, keywords[..|keywords| - 1]) + KeywordPoints(Lookup(rankings, keywords[|keywords| - 1]))
  }

  function MaxOf(values: seq<int>): (m: int)
    requires values != []
    ensures m in values && forall i :: 0 <= i < |values| ==> values[i] <= m
  {
    if |values| == 1 then values[0]
    else
      var rest := MaxOf(values[..|values| - 1]);
      var last := values[|values| - 1];
      assert forall i :: 0 <= i < |values| - 1 ==> values[..|values| - 1][i] == values[i];
      if last > rest then last else rest
  }

  function Rank(r: PyRecord): int { r.backlinks.rank }

  /** The domain ranks of the practice and then of the competitors. */
  function AllRanks(practice: PyRecord, competitors: seq<PyRecord>): (ranks: seq<int>)
    ensures |ranks| == |competitors| + 1 && ranks[0] == practice.backlinks.rank
  {
    [practice.backlinks.rank] + seq(|competitors|, i requires 0 <= i < |competitors| => competitors[i].backlinks.rank)
  }

  /** The practice's rank as a truncated percentage of the highest rank; 0 when that is not positive. */
  function BacklinksScore(practice: PyRecord, competitors: seq<PyRecord>): int {
    var top := MaxOf(AllRanks(practice, competitors));
    if top > 0 then TruncDiv(100 * practice.backlinks.rank, top) else 0
  }

  /** `int(k * 0.4 + b * 0.3 + t * 0.3)`. */
  function OverallScore(k: int, b: int, t: int): int {
    TruncDiv(4 * k + 3 * b + 3 * t, 10)
  }

  /** What `calculate_scores` returns. */
  function ScoresOf(practice: PyRecord, competitors: seq<PyRecord>, keywords: seq<string>): Scores {
    var k := if |keywords| > 0 then KeywordTotal(practice.rankings, keywords) / |keywords| else 0;
    var b := BacklinksScore(practice, competitors);
    var t := TruncReal(practice.onPage.score);
    Scores(OverallScore(k, b, t), k, b, t)
  }

  /** `calculate_scores`: the keyword loop adds up points; then the three parts and their weighted sum. */
  method CalculateScores(practice: PyRecord, competitors: seq<PyRecord>, keywords: seq<string>) returns (s: Scores)
    ensures s == ScoresOf(practice, competitors, keywords)
  {
    var keywordScore := 0;
    var maxScore := |keywords| * 100;
    var i := 0;
    while i < |keywords|
      invariant 0 <= i <= |keywords|
      invariant keywordScore == KeywordTotal(practice.rankings, keywords[..i])
    {
      assert keywords[..i + 1][..i] == keywords[..i];
      var rank := Lookup(practice.rankings, keywords[i]);
      if rank.Some? && rank.value != 0 {
        if rank.value <= 3 {
          keywordScore := keywordScore + 100;
        } else if rank.value <= 10 {
          keywordScore := keywordScore + 70;
        } else if rank.value <= 20 {
          keywordScore := keywordScore + 40;
        } else {
          keywordScore := keywordScore + 10;
        }
      }
      i := i + 1;
    }
    assert keywords[..i] == keywords;
    var keywordsNormalized := 0;
    if maxScore > 0 {
      KeywordShare(keywordScore, |keywords|);
      keywordsNormalized := (keywordScore * 100) / maxScore;
    }
    var backlinksNormalized := BacklinksScore(practice, competitors);
    var technicalNormalized := TruncReal(practice.onPage.score);
    s := Scores(OverallScore(keywordsNormalized, backlinksNormalized, technicalNormalized),
                keywordsNormalized, backlinksNormalized, technicalNormalized);
  }

  lemma MulMono(b: int, x: int, y: int)
    requires b > 0 && x <= y
    ensures x * b <= y * b
  {
    assert y * b - x * b == (y - x) * b;
  }

  /** The quotient is the `q` with `q * b <= a < (q + 1) * b`. */
  lemma DivUnique(a: int, b: int, q: int)
    requires b > 0 && q * b <= a < q * b + b
    ensures a / b == q
  {
    var d := a / b;
    assert d * b <= a < d * b + b;
    assert (q + 1) * b == q * b + b && (d + 1) * b == d * b + b;
    if d > q {
      MulMono(b, q + 1, d);
    }
    if d < q {
      MulMono(b, d + 1, q);
    }
  }

  /** A quotient of a numerator in `[0, m b]` lies in `[0, m]`. */
  lemma DivBounds(a: int, b: int, m: int)
    requires b > 0 && 0 <= a <= m * b
    ensures 0 <= a / b <= m
  {
    var d := a / b;
    assert (m + 1) * b == m * b + b;
    if d > m {
      MulMono(b, m + 1, d);
    }
  }

  /** `(total / (100 n)) * 100` is `total / n`. */
  lemma KeywordShare(total: int, n: int)
    requires total >= 0 && n > 0
    ensures (total * 100) / (n * 100) == total / n
  {
    var q := total / n;
    assert q * n <= total < q * n + n;
    assert q * (n * 100) == (q * n) * 100;
    assert q * (n * 100) + n * 100 == (q * n + n) * 100;
    DivUnique(total * 100, n * 100, q);
  }

  /**
   * The keyword and backlinks scores lie in [0, 100] (for ranks that are not
   * negative), and so does the overall score when the technical one does.
   */
  lemma ScoresBounded(practice: PyRecord, competitors: seq<PyRecord>, keywords: seq<string>)
    requires forall r :: r in AllRanks(practice, competitors) ==> r >= 0
    ensures var s := ScoresOf(practice, competitors, keywords);
      && 0 <= s.keywords <= 100
      && 0 <= s.backlinks <= 100
      && (0 <= s.technical <= 100 ==> 0 <= s.overall <= 100)
  {
    var ranks := AllRanks(practice, competitors);
    var top := MaxOf(ranks);
    var rank := practice.backlinks.rank;
    assert rank in ranks;
    if top > 0 {
      DivBounds(100 * rank, top, 100);
    }
    if |keywords| > 0 {
      DivBounds(KeywordTotal(practice.rankings, keywords), |keywords|, 100);
    }
    var s := ScoresOf(practice, competitors, keywords);
    if 0 <= s.technical <= 100 {
      DivBounds(4 * s.keywords + 3 * s.backlinks + 3 * s.technical, 10, 100);
    }
  }

  /** Every keyword in the top three gives a keyword score of 100. */
  lemma {:induction false} AllTopThree(rankings: RankMap, keywords: seq<string>)
    requires forall i :: 0 <= i < |keywords| ==> KeywordPoints(Lookup(rankings, keywords[i])) == 100
    ensures KeywordTotal(rankings, keywords) == 100 * |keywords|
    decreases |keywords|
  {
    if keywords != [] {
      var init := keywords[..|keywords| - 1];
      assert forall i :: 0 <= i < |init| ==> init[i] == keywords[i];
      AllTopThree(rankings, init);
    }
  }

  /** No keyword with a position gives a keyword score of 0. */
  lemma {:induction false} NoneRanked(rankings: RankMap, keywords: seq<string>)
    requires forall i :: 0 <= i < |keywords| ==> KeywordPoints(Lookup(rankings, keywords[i])) == 0
    ensures KeywordTotal(rankings, keywords) == 0
    decreases |keywords|
  {
    if keywords != [] {
      var init := keywords[..|keywords| - 1];
      assert forall i :: 0 <= i < |init| ==> init[i] == keywords[i];
      NoneRanked(rankings, init);
    }
  }

  // ---------------------------------------------------------------------------
  // Keyword table and summary
  // ---------------------------------------------------------------------------

  datatype KeywordRow = KeywordRow(
    keyword: string,
    practiceRank: Option<int>,
    bestCompetitorRank: Option<int>,
    bestCompetitor: Option<string>)

  /** A truthy position: present and not 0. */
  predicate Ranked(rank: Option<int>) {
    rank.Some? && rank.value != 0
  }

  /** The best competitor position for a keyword and the name of who holds it. */
  datatype Leader = Leader(rank: int, name: Option<string>)

  /** The first competitor with the smallest truthy position for `keyword`. */
  function BestCompetitor(cs: seq<PyRecord>, keyword: string): Option<Leader> {
    if cs == [] then None
    else
      var best := BestCompetitor(cs[..|cs| - 1], keyword);
      var c := cs[|cs| - 1];
      var rank := Lookup(c.rankings, keyword);
      if Ranked(rank) && (best.None? || rank.value < best.value.rank) then Some(Leader(rank.value, c.name)) else best
  }

  function RowOf(keyword: string, practice: PyRecord, cs: seq<PyRecord>): KeywordRow {
    var best := BestCompetitor(cs, keyword);
    KeywordRow(keyword, Lookup(practice.rankings, keyword),
      if best.Some? then Some(best.value.rank) else None,
      if best.Some? then best.value.name else None)
  }

  /**
   * `rank` and `name` are the leader of `keyword` among `cs`: none when no
   * competitor has a truthy position; otherwise the smallest truthy position
   * and the name of the first competitor holding it.
   */
  predicate IsLeader(cs: seq<PyRecord>, keyword: string, rank: Option<int>, name: Option<string>) {
    && (rank.None? <==> forall j :: 0 <= j < |cs| ==> !Ranked(Lookup(cs[j].rankings, keyword)))
    && (rank.None? ==> name.None?)
    && (rank.Some? ==>
          && (forall j :: 0 <= j < |cs| && Ranked(Lookup(cs[j].rankings, keyword)) ==> rank.value <= Lookup(cs[j].rankings, keyword).value)
          && exists j :: 0 <= j < |cs| && Lookup(cs[j].rankings, keyword) == rank && cs[j].name == name
                         && forall t :: 0 <= t < j ==> !Ranked(Lookup(cs[t].rankings, keyword)) || Lookup(cs[t].rankings, keyword).value > rank.value)
  }

  /** A row's leader columns are the leader of its keyword. */
  lemma RowLeader(keyword: string, practice: PyRecord, cs: seq<PyRecord>)
    ensures var row := RowOf(keyword, practice, cs); IsLeader(cs, keyword, row.bestCompetitorRank, row.bestCompetitor)
  {
    LeaderIffRanked(cs, keyword);
    if BestCompetitor(cs, keyword).Some? {
      forall j | 0 <= j < |cs| && Ranked(Lookup(cs[j].rankings, keyword))
        ensures BestCompetitor(cs, keyword).value.rank <= Lookup(cs[j].rankings, keyword).value
      {
        BestIsMinimum(cs, keyword, j);
      }
      var i := BestAttained(cs, keyword);
    }
  }

  /** The keyword table: one row per keyword, in keyword order, with the practice's position and the keyword's leader. */
  function KeywordRows(keywords: seq<string>, practice: PyRecord, cs: seq<PyRecord>): (rows: seq<KeywordRow>)
    ensures |rows| == |keywords|
    ensures forall i :: 0 <= i < |rows| ==> rows[i].keyword == keywords[i] && rows[i].practiceRank == Lookup(practice.rankings, keywords[i])
    ensures forall i :: 0 <= i < |rows| ==> IsLeader(cs, keywords[i], rows[i].bestCompetitorRank, rows[i].bestCompetitor)
  {
    forall k | 0 <= k < |keywords| ensures IsLeader(cs, keywords[k], RowOf(keywords[k], practice, cs).bestCompetitorRank, RowOf(keywords[k], practice, cs).bestCompetitor) {
      RowLeader(keywords[k], practice, cs);
    }
    seq(|keywords|, i requires 0 <= i < |keywords| => RowOf(keywords[i], practice, cs))
  }

  /** The leader's position is no worse than any competitor's truthy position. */
  lemma {:induction false} BestIsMinimum(cs: seq<PyRecord>, keyword: string, i: nat)
    requires i < |cs| && Ranked(Lookup(cs[i].rankings, keyword))
    ensures BestCompetitor(cs, keyword).Some?
    ensures BestCompetitor(cs, keyword).value.rank <= Lookup(cs[i].rankings, keyword).value
    decreases |cs|
  {
    var init := cs[..|cs| - 1];
    if i < |cs| - 1 {
      assert init[i] == cs[i];
      BestIsMinimum(init, keyword, i);
    }
  }

  /** The leader is a competitor holding the leading position, and every one before it has none or a worse one. */
  lemma {:induction false} BestAttained(cs: seq<PyRecord>, keyword: string) returns (i: nat)
    requires BestCompetitor(cs, keyword).Some?
    ensures i < |cs|
    ensures Lookup(cs[i].rankings, keyword) == Some(BestCompetitor(cs, keyword).value.rank)
    ensures cs[i].name == BestCompetitor(cs, keyword).value.name
    ensures forall j :: 0 <= j < i ==> !Ranked(Lookup(cs[j].rankings, keyword)) || Lookup(cs[j].rankings, keyword).value > BestCompetitor(cs, keyword).value.rank
    decreases |cs|
  {
    var init := cs[..|cs| - 1];
    var best := BestCompetitor(init, keyword);
    var last := Lookup(cs[|cs| - 1].rankings, keyword);
    if Ranked(last) && (best.None? || last.value < best.value.rank) {
      i := |cs| - 1;
      forall j | 0 <= j < i && Ranked(Lookup(cs[j].rankings, keyword))
        ensures Lookup(cs[j].rankings, keyword).value > last.value
      {
        assert init[j] == cs[j];
        BestIsMinimum(init, keyword, j);
      }
    } else {
      i := BestAttained(init, keyword);
      assert forall j :: 0 <= j < |init| ==> init[j] == cs[j];
    }
  }

  /** There is a leader exactly when some competitor has a truthy position. */
  lemma {:induction false} LeaderIffRanked(cs: seq<PyRecord>, keyword: string)
    ensures BestCompetitor(cs, keyword).Some? <==> exists i :: 0 <= i < |cs| && Ranked(Lookup(cs[i].rankings, keyword))
    decreases |cs|
  {
    if cs != [] {
      var init := cs[..|cs| - 1];
      LeaderIffRanked(init, keyword);
      assert forall i :: 0 <= i < |init| ==> init[i] == cs[i];
    }
  }

  /** The keyword loop of `run_analysis`: for each keyword a scan of the competitors keeping the best position. */
  method BuildKeywordRows(keywords: seq<string>, practice: PyRecord, competitors: seq<PyRecord>) returns (rows: seq<KeywordRow>)
    ensures rows == KeywordRows(keywords, practice, competitors)
  {
    rows := [];
    var k := 0;
    while k < |keywords|
      invariant 0 <= k <= |keywords| && |rows| == k
      invariant forall j :: 0 <= j < k ==> rows[j] == RowOf(keywords[j], practice, competitors)
    {
      var kw := keywords[k];
      var bestCompetitor: Option<string> := None;
      var bestRank: Option<int> := None;
      var i := 0;
      while i < |competitors|
        invariant 0 <= i <= |competitors|
        invariant var best := BestCompetitor(competitors[..i], kw);
          && bestRank == (if best.Some? then Some(best.value.rank) else None)
          && bestCompetitor == (if best.Some? then best.value.name else None)
      {
        assert competitors[..i + 1][..i] == competitors[..i];
        var compRank := Lookup(competitors[i].rankings, kw);
        if Ranked(compRank) && (bestRank.None? || compRank.value < bestRank.value) {
          bestRank := compRank;
          bestCompetitor := competitors[i].name;
        }
        i := i + 1;
      }
      assert competitors[..i] == competitors;
      rows := rows + [KeywordRow(kw, Lookup(practice.rankings, kw), bestRank, bestCompetitor)];
      k := k + 1;
    }
  }

  datatype KeywordSummary = KeywordSummary(
    totalKeywords: nat,
    rankingCount: nat,
    top5Ranking: seq<KeywordRow>,
    top5Improve: seq<KeywordRow>)

  predicate HasPracticeRank(row: KeywordRow) { Ranked(row.practiceRank) }

  predicate NotRanking(row: KeywordRow) { !Ranked(row.practiceRank) }

  predicate RankedPoorly(row: KeywordRow) { Ranked(row.practiceRank) && row.practiceRank.value > 10 }

  /** The sort key: the practice's position (rows without one are never sorted). */
  function PracticeRankKey(row: KeywordRow): int {
    if row.practiceRank.Some? then row.practiceRank.value else 0
  }

  /** Five of `rows` (all of them when there are five or fewer), best position first, ties in keyword order. */
  function TopFive(rows: seq<KeywordRow>): (r: seq<KeywordRow>)
    ensures |r| == Seqs.Min(5, |rows|) && StableSort.SortedBy(r, PracticeRankKey)
    ensures forall x :: x in r ==> x in rows
    ensures |rows| <= 5 ==> multiset(r) == multiset(rows)
    ensures multiset(r) <= multiset(rows)
    ensures r == StableSort.SortBy(rows, PracticeRankKey)[..|r|]
  {
    var sorted := StableSort.SortBy(rows, PracticeRankKey);
    var r := Seqs.Take(sorted, 5);
    assert forall i :: 0 <= i < |r| ==> r[i] == sorted[i];
    assert sorted == r + sorted[|r|..];
    forall x | x in r ensures x in rows {
      StableSort.SortByMembers(rows, PracticeRankKey, x);
    }
    assert |rows| <= 5 ==> r == sorted;
    r
  }

  /**
   * `improve` lists the rows to improve as `run_analysis` orders them: the
   * unranked rows first, in keyword order, then rows past the top 10 in
   * ascending position, five at most, all taken from `rows`.
   */
  predicate ImproveOrder(rows: seq<KeywordRow>, improve: seq<KeywordRow>) {
    var notRanking := Seqs.Filter(rows, NotRanking);
    && |improve| == Seqs.Min(5, |notRanking| + |Seqs.Filter(rows, RankedPoorly)|)
    && (forall i :: 0 <= i < |improve| && i < |notRanking| ==> improve[i] == notRanking[i])
    && (forall i :: |notRanking| <= i < |improve| ==> RankedPoorly(improve[i]))
    && (forall i, j :: |notRanking| <= i < j < |improve| ==>
          PracticeRankKey(improve[i]) <= PracticeRankKey(improve[j]))
    && (forall x :: x in improve ==> x in rows && (NotRanking(x) || RankedPoorly(x)))
  }

  /** Past the unranked rows, `improve` follows the stable sort of the poorly ranked rows by position. */
  predicate PoorTailSorted(rows: seq<KeywordRow>, improve: seq<KeywordRow>) {
    var nr := |Seqs.Filter(rows, NotRanking)|;
    var poor := StableSort.SortBy(Seqs.Filter(rows, RankedPoorly), PracticeRankKey);
    forall i :: nr <= i < |improve| && i - nr < |poor| ==> improve[i] == poor[i - nr]
  }

  /** The unranked rows, then the poorly ranked ones by position, five at most. */
  function ToImprove(rows: seq<KeywordRow>): (improve: seq<KeywordRow>)
    ensures ImproveOrder(rows, improve)
    ensures PoorTailSorted(rows, improve)
  {
    var poorly := Seqs.Filter(rows, RankedPoorly);
    var poor := StableSort.SortBy(poorly, PracticeRankKey);
    forall k | 0 <= k < |poor| ensures poor[k] in rows && RankedPoorly(poor[k]) {
      StableSort.SortByMembers(poorly, PracticeRankKey, poor[k]);
      var j :| 0 <= j < |poorly| && poorly[j] == poor[k];
    }
    var improve := Seqs.Take(Seqs.Filter(rows, NotRanking) + poor, 5);
    ImproveParts(rows, poor, improve);
    PoorTail(rows, improve);
    improve
  }

  /** The improve list keeps its order whatever sorted arrangement `poor` of the poorly ranked rows follows the unranked ones. */
  lemma ImproveParts(rows: seq<KeywordRow>, poor: seq<KeywordRow>, improve: seq<KeywordRow>)
    requires |poor| == |Seqs.Filter(rows, RankedPoorly)| && StableSort.SortedBy(poor, PracticeRankKey)
    requires forall k :: 0 <= k < |poor| ==> poor[k] in rows && RankedPoorly(poor[k])
    requires improve == Seqs.Take(Seqs.Filter(rows, NotRanking) + poor, 5)
    ensures ImproveOrder(rows, improve)
  {
    var notRanking := Seqs.Filter(rows, NotRanking);
    Seqs.TakeConcat(notRanking, poor, 5);
    Seqs.TakeConcatTail(notRanking, poor, 5, RankedPoorly);
    StableSort.SortedTakeConcatTail(notRanking, poor, 5, PracticeRankKey);
    forall x | x in improve ensures x in rows && (NotRanking(x) || RankedPoorly(x)) {
      Seqs.TakeConcatMember(notRanking, poor, 5, x);
      if x in notRanking {
        var i :| 0 <= i < |notRanking| && notRanking[i] == x;
      } else {
        var k :| 0 <= k < |poor| && poor[k] == x;
      }
    }
  }

  /** The rows past the unranked ones are the front of the sorted poorly ranked rows. */
  lemma PoorTail(rows: seq<KeywordRow>, improve: seq<KeywordRow>)
    requires improve == Seqs.Take(Seqs.Filter(rows, NotRanking) + StableSort.SortBy(Seqs.Filter(rows, RankedPoorly), PracticeRankKey), 5)
    ensures PoorTailSorted(rows, improve)
  {
    Seqs.TakeConcat(Seqs.Filter(rows, NotRanking), StableSort.SortBy(Seqs.Filter(rows, RankedPoorly), PracticeRankKey), 5);
  }

  /**
   * The summary: how many keywords, how many the practice ranks for, its
   * five best, and five to improve: the unranked ones first, in keyword
   * order, then those past the top 10, best first.
   */
  function Summarize(keywords: seq<string>, rows: seq<KeywordRow>): (s: KeywordSummary)
    ensures s.totalKeywords == |keywords|
    ensures s.rankingCount == |Seqs.Filter(rows, HasPracticeRank)|
    ensures |s.top5Ranking| == Seqs.Min(5, s.rankingCount) && StableSort.SortedBy(s.top5Ranking, PracticeRankKey)
    ensures forall x :: x in s.top5Ranking ==> x in rows && HasPracticeRank(x)
    ensures multiset(s.top5Ranking) <= multiset(Seqs.Filter(rows, HasPracticeRank))
    ensures s.top5Ranking == StableSort.SortBy(Seqs.Filter(rows, HasPracticeRank), PracticeRankKey)[..|s.top5Ranking|]
    ensures ImproveOrder(rows, s.top5Improve) && PoorTailSorted(rows, s.top5Improve)
  {
    var ranked := Seqs.Filter(rows, HasPracticeRank);
    KeywordSummary(|keywords|, |ranked|, TopFive(ranked), ToImprove(rows))
  }

  /** A row `TopFive` leaves out ranks no better than any row it keeps. */
  lemma TopFiveBest(rows: seq<KeywordRow>, x: KeywordRow)
    requires x in rows && x !in TopFive(rows)
    ensures forall y :: y in TopFive(rows) ==> PracticeRankKey(y) <= PracticeRankKey(x)
  {
    var sorted := StableSort.SortBy(rows, PracticeRankKey);
    var top := TopFive(rows);
    assert top == sorted[..|top|];
    StableSort.SortByMembers(rows, PracticeRankKey, x);
    var t :| 0 <= t < |sorted| && sorted[t] == x;
    assert t >= |top|;
    forall y | y in top ensures PracticeRankKey(y) <= PracticeRankKey(x) {
      var i :| 0 <= i < |top| && top[i] == y;
      assert sorted[i] == y;
    }
  }
}

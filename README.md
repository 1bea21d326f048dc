# DentistEnvy core, modelled in Dafny

DentistEnvy compares a dental practice's local search presence with that of
nearby competitors. Given a practice name, an address and a website, it
finds competitor practices through Google Places (or takes a manual list of
competitor URLs), asks DataForSEO for keyword rankings, backlink figures and
an on-page audit of every site, and turns these into scores, a keyword
comparison table, a keyword summary and a list of recommendations. An
analysis runs as a background job that the client polls for progress and
then fetches as a report.

The system has two backends with the same purpose, and both are modelled:

- the TypeScript backend: `google-places.ts` (the domain key, geocoding,
  the paginated nearby search and the competitor selection),
  `dataforseo.ts` (task replies to results, single and batch),
  `seo-analyzer.ts` (keywords, ranking maps, competitor records, scores,
  recommendations, keyword comparisons, the whole analysis) and
  `routes/analysis.ts` (request validation, the job store and the job
  lifecycle, status, report, competitor discovery, URL validation and report
  serialisation) — modules `GooglePlaces`, `DataForSeo`, `SeoAnalyzer` and
  `AnalysisRoutes`;
- the Python backend, `backend/src/app.py` — modules `FlaskProviders`
  (domain key, geocoding, competitor search, review lookup, the per-item
  DataForSEO loops, directory listings), `FlaskAnalysis` (city, keywords,
  ranking maps, competitor records, scores, keyword table and summary),
  `FlaskRecommendations` (`generate_recommendations`) and `FlaskJobs`
  (`run_analysis`, the job store and the routes).

`Wrappers`, `Text`, `Seqs` and `StableSort` hold the option/result types,
the string operations both languages use (split, trim, word split, replace,
ASCII lower case), sequence filters and a stable sort by an integer key.

Every web service is a function parameter that gives the service's reply to
a request; a reply is an input datatype. Job records are classes whose
fields the methods update in place; the loops of the source (pagination,
ranking maps, score accumulation, keyword comparisons, the job steps) are
methods proved equal to specification functions, and the properties are
lemmas about those functions.

A recommendation in both backends carries its priority, category and title,
and the figures its text prints (`Detail`); `SeoAnalyzer.Description` and
`FlaskRecommendations.Description` render that text as the source's template
strings and f-strings do, with one decimal place rounded from the exact value
(the ties that the source's binary doubles round the other way are listed
under "## Left out").

`extractDomain` in google-places.ts removes only one leading `www.`, so the
TypeScript domain key is not idempotent: `www.www.foo.com` keys to
`www.foo.com`, which keys to `foo.com`. The model follows the code
(`GooglePlaces.DoubleWwwNotIdempotent`) and proves idempotence only for
keys that do not start with `www.` (`GooglePlaces.ExtractDomainIdempotent`).

## Model

| member | source | states |
|---|---|---|
| GooglePlaces.UrlHostname | backend/src/services/google-places.ts:186-187 | a hostname the URL parser accepts is a valid host and comes back lower-cased |
| GooglePlaces.FallbackDomain | backend/src/services/google-places.ts:188-189 | when the URL does not parse, the scheme and `www.` are stripped and the key stops before the first `/` |
| GooglePlaces.ExtractDomain | backend/src/services/google-places.ts:184-191 | the domain key never contains a `/`, on both the parsed and the fallback path |
| GooglePlaces.HostnameOfUrl | backend/src/services/google-places.ts:186 | an `http://` or `https://` URL whose host is followed by a port, path, query or fragment parses to that host, lower-cased |
| GooglePlaces.DomainOfUrl | backend/src/services/google-places.ts:186-187 | the key of such a URL is its lower-cased host without a leading `www.` |
| GooglePlaces.DomainOfBareHost | backend/src/services/google-places.ts:186-187 | a bare host (no scheme) gets `https://` put in front and yields the same key as the full URL |
| GooglePlaces.WwwUrlKey | backend/src/services/google-places.ts:187 | `https://www.<host><path>` keys to `<host>`: the `www.` and the path are dropped |
| GooglePlaces.SameKeyForms | backend/src/services/google-places.ts:184-191 | the bare host, the `https://` URL and the `https://www.` URL of one site all give the same key |
| GooglePlaces.PlainHostFallback | backend/src/services/google-places.ts:189 | the fallback path leaves a plain host-character string without `www.` unchanged |
| GooglePlaces.ExtractDomainIdempotent | backend/src/services/google-places.ts:184-191 | applying the key twice gives the key again, whenever the URL parses and the key does not itself start with `www.` |
| GooglePlaces.WwwHostDomain | backend/src/services/google-places.ts:186-187 | `www.<host>` without a scheme keys to `<host>` |
| GooglePlaces.DoubleWwwNotIdempotent | backend/src/services/google-places.ts:187 | only one `www.` is removed: `www.www.foo.com` keys to `www.foo.com`, and keying that again gives `foo.com` |
| GooglePlaces.GeocodeAddress | backend/src/services/google-places.ts:35-57 | no key gives the key error; otherwise it succeeds exactly when the status is `OK` and there is at least one result, returns the first result's coordinates and formatted address, and otherwise fails with `Geocoding failed: <status>` |
| GooglePlaces.GetPlaceDetails | backend/src/services/google-places.ts:155-179 | no key gives the key error; it succeeds exactly when the status is `OK`, returns the reply's website, and otherwise fails with `Place Details API error: <status>` |
| GooglePlaces.PageTokensFrom | backend/src/services/google-places.ts:81-108 | the page-token chain only grows from the tokens already followed and never passes three pages |
| GooglePlaces.PageTokens | backend/src/services/google-places.ts:78-108 | the chain starts with the first request, which carries no token, and has one to three entries |
| GooglePlaces.FetchPages | backend/src/services/google-places.ts:77-108 | the loop follows the token chain; a page whose status is neither `OK` nor `ZERO_RESULTS` fails with `Places API error: <status>`; otherwise the results of all pages come back in order, and the loop stopped after three pages or at a page without a next token |
| GooglePlaces.ToCompetitor | backend/src/services/google-places.ts:119-141 | the record keeps the place id, name, rating and location, counts a missing review total as 0, takes the vicinity, else the formatted address, else the empty string as its address, and has the details' website exactly when the key is set and the details call answered `OK` (a failed details call is swallowed and gives none) |
| GooglePlaces.Built | backend/src/services/google-places.ts:111-142 | every competitor built comes from a place whose name matches none of the excluded chains |
| GooglePlaces.Candidates | backend/src/services/google-places.ts:111-146 | every candidate has a website and is not an excluded chain |
| GooglePlaces.CandidateOrigin | backend/src/services/google-places.ts:111-146 | every candidate is the competitor built from some non-chain place of the search |
| GooglePlaces.RankedCandidates | backend/src/services/google-places.ts:144-147 | the sorted list holds exactly the candidates, all with websites and none a chain, in non-increasing review count |
| GooglePlaces.SelectCompetitors | backend/src/services/google-places.ts:144-149 | exactly `min(limit, number of candidates)` competitors, all candidates with websites and no chain, in non-increasing review count |
| GooglePlaces.CandidateKept | backend/src/services/google-places.ts:111-146 | every place that is not an excluded chain and whose details lookup answers `OK` with a website is among the candidates |
| GooglePlaces.SelectionStable | backend/src/services/google-places.ts:147-149 | the sort is stable: competitors with the same review count keep the order the search returned them in |
| GooglePlaces.SelectionIsSortedPrefix | backend/src/services/google-places.ts:145-149 | the selection is the first `min(limit, number of candidates)` entries of the candidates stably sorted by review count |
| GooglePlaces.SelectionKeepsMostReviewed | backend/src/services/google-places.ts:147-149 | a candidate left out has no more reviews than any competitor kept |
| GooglePlaces.SelectionUnderLimitKeepsAll | backend/src/services/google-places.ts:149 | with at most `limit` candidates, every candidate is kept |
| GooglePlaces.DentalCompetitors | backend/src/services/google-places.ts:66-150 | no key gives the key error; with a key it fails exactly when the last page fetched was rejected, with `Places API error: <status>`, and otherwise returns the first `min(limit, number of candidates)` of the candidates of every fetched page, stably sorted by review count |
| GooglePlaces.FindDentalCompetitors | backend/src/services/google-places.ts:66-150 | the imperative pagination agrees with `DentalCompetitors`: a rejected page status fails with `Places API error: <status>`, otherwise the result is the selection over all fetched pages (at most three) |
| DataForSeo.OrElse | backend/src/services/dataforseo.ts:79 | a present, non-empty string is used, and anything else gives the fallback (`a \|\| b` on strings) |
| DataForSeo.NewClient | backend/src/services/dataforseo.ts:37-55 | the client is created exactly when both login and password are non-empty, and otherwise fails with `DataForSEO credentials not configured` |
| DataForSeo.TaskError | backend/src/services/dataforseo.ts:78-79 | the error text is the prefix plus the first task's status message, or `Unknown error` when there is no task or no message |
| DataForSeo.OrganicRankings | backend/src/services/dataforseo.ts:82-90 | keeping only the organic items never lengthens the list |
| DataForSeo.OrganicRankingsOrigin | backend/src/services/dataforseo.ts:83-90 | every ranking comes from an organic item of the reply |
| DataForSeo.OrganicRankingsAppend | backend/src/services/dataforseo.ts:83-90 | the organic filter works item by item: it distributes over concatenation, so order is kept |
| DataForSeo.OrganicRankingsKeep | backend/src/services/dataforseo.ts:83-90 | every organic item of the reply appears among the rankings |
| DataForSeo.GetKeywordRankings | backend/src/services/dataforseo.ts:63-93 | it fails exactly when the first task is missing or its status code is not 20000, with `SERP API error: <message>`; otherwise it returns the keyword and the organic rankings of the first result |
| DataForSeo.GetMultipleKeywordRankings | backend/src/services/dataforseo.ts:98-129 | one result per task, paired with the keyword at the same index; a failed task gives an empty ranking list rather than an error; only a reply without a task list fails |
| DataForSeo.BatchRankingsAgreeWithSingle | backend/src/services/dataforseo.ts:111-128 | a successful task in the batch gives the same result as the single-keyword call would |
| DataForSeo.BatchRankingsDegrade | backend/src/services/dataforseo.ts:112-115 | a failed task, which would make the single call fail, gives the keyword with no rankings in the batch |
| DataForSeo.ZeroBacklinks | backend/src/services/dataforseo.ts:146-152 | the all-zero backlinks record for a domain |
| DataForSeo.GetBacklinksSummary | backend/src/services/dataforseo.ts:134-162 | it fails exactly when the first task failed, with `Backlinks API error: <message>`; no result gives zeros for the requested domain; otherwise the counts are those of the result, with a missing count read as 0 |
| DataForSeo.GetMultipleBacklinks | backend/src/services/dataforseo.ts:167-192 | one record per task; a failed task or an empty result gives zeros for the domain at that index; only a reply without a task list fails |
| DataForSeo.BatchBacklinksAgreeWithSingle | backend/src/services/dataforseo.ts:183-190 | for a successful task the batch has the same counts as the single call, and the same domain unless the result's target is empty, when the batch falls back to the requested domain |
| DataForSeo.BatchBacklinksDegrade | backend/src/services/dataforseo.ts:172-181 | a failed task, which would make the single call fail, gives zeros in the batch |
| DataForSeo.LoadTime | backend/src/services/dataforseo.ts:222 | a page without timing, or without time-to-interactive, loads in 0 |
| DataForSeo.EmptyOnPage | backend/src/services/dataforseo.ts:241-250 | the empty on-page record: status 0, score 0, no title, description or checks, load time 0, size 0 |
| DataForSeo.GetOnPageAnalysis | backend/src/services/dataforseo.ts:197-225 | it fails when the first task failed (`OnPage API error: <message>`) or returned no item (`No OnPage data returned`), and only then; otherwise it returns the item's url, status code, load time, score, title, description, checks and content size, with a missing score, load time or size read as 0, a missing title or description as `''` and missing checks as `{}` |
| DataForSeo.GetMultipleOnPageAnalysis | backend/src/services/dataforseo.ts:230-265 | one record per task, always with a status code; a failed task or a missing item gives the empty record for the url at that index; only a reply without a task list fails |
| DataForSeo.BatchOnPageAgreeWithSingle | backend/src/services/dataforseo.ts:253-263 | for a task with an item, the batch record is the single call's record, except that an empty url falls back to the requested url and a missing status code becomes 0 |
| DataForSeo.BatchOnPageDegrade | backend/src/services/dataforseo.ts:239-251 | a failed task, which would make the single call fail, gives the empty record in the batch |
| SeoAnalyzer.KeywordsFor | backend/src/services/seo-analyzer.ts:63-82 | one keyword per template, in template order (18 in all) |
| SeoAnalyzer.CityKeyword | backend/src/services/seo-analyzer.ts:132 | a template made of a phrase without `{` followed by `{city}` becomes the phrase followed by the city |
| SeoAnalyzer.FixedKeyword | backend/src/services/seo-analyzer.ts:132 | a template without `{city}`, such as "dentist near me", is the same keyword for every city |
| SeoAnalyzer.ExtractCity | backend/src/services/seo-analyzer.ts:241-248 | an address without a comma is its own city, trimmed |
| SeoAnalyzer.ExtractCityOfParts | backend/src/services/seo-analyzer.ts:243-245 | an address of two or more comma-separated parts gives the next-to-last part, trimmed |
| SeoAnalyzer.RankAt | backend/src/services/seo-analyzer.ts:260 | a keyword missing from the map has no rank; otherwise the rank is the stored position (`null` stays `null`) |
| SeoAnalyzer.ReconcileRankings | backend/src/services/seo-analyzer.ts:150-175 | the practice map is `PracticeRankings` of the results; the competitor maps have exactly the competitor domains as keys, each holding `CompetitorRankings` of the results |
| SeoAnalyzer.ReconcileResult | backend/src/services/seo-analyzer.ts:159-175 | one keyword result: the practice rank is the position of the last matching entry, and the competitor maps move on by exactly this result |
| SeoAnalyzer.PracticeRankStep | backend/src/services/seo-analyzer.ts:162-167 | a later practice entry overwrites the rank found so far; any other entry leaves it |
| SeoAnalyzer.CompetitorsStep | backend/src/services/seo-analyzer.ts:163-171 | an entry whose domain (without `www.`) is a tracked competitor sets that competitor's position for the keyword; an untracked domain changes nothing |
| SeoAnalyzer.CompetitorsEnd | backend/src/services/seo-analyzer.ts:159-175 | after all entries of a result, the competitor maps agree with `CompetitorRankings` over the results so far |
| SeoAnalyzer.PracticeRankingsKeys | backend/src/services/seo-analyzer.ts:174 | the practice map has a key exactly for each result's keyword, ranked or not |
| SeoAnalyzer.LastPracticeRankNone | backend/src/services/seo-analyzer.ts:160-167 | the practice is unranked for a keyword exactly when no entry matches its domain or its `www.` domain |
| SeoAnalyzer.LastPracticeRankLast | backend/src/services/seo-analyzer.ts:162-167 | a practice rank is the position of a matching entry with no matching entry after it: the last match wins |
| SeoAnalyzer.LastRankOfNone | backend/src/services/seo-analyzer.ts:169-171 | a competitor gets no position for a keyword exactly when no entry has its domain |
| SeoAnalyzer.CompetitorRankingsKeys | backend/src/services/seo-analyzer.ts:154-171 | a competitor map has a key exactly for the keywords where one of the competitor's entries appeared (never a `null` entry for an unranked keyword) |
| SeoAnalyzer.CompetitorRankingsNotNull | backend/src/services/seo-analyzer.ts:170 | every value stored in a competitor map is a position |
| SeoAnalyzer.PracticeDomainAlsoCompetitor | backend/src/services/seo-analyzer.ts:163-171 | the two tests are not exclusive: an entry credited to a competitor with the practice's own domain also ranks the practice |
| SeoAnalyzer.ManualNames | backend/src/services/seo-analyzer.ts:113 | in manual mode the names map has exactly the competitor domains as keys, each named after itself |
| SeoAnalyzer.AutoDomains | backend/src/services/seo-analyzer.ts:119-121 | only competitors with a website give a domain, so there are never more domains than competitors |
| SeoAnalyzer.AutoDomainsAllWebsites | backend/src/services/seo-analyzer.ts:119-121 | when every competitor has a website, the domains are their websites' keys, one per competitor and in order |
| SeoAnalyzer.AutoDomainsNamed | backend/src/services/seo-analyzer.ts:119-127 | every auto-mode domain has an entry in the names map |
| SeoAnalyzer.DisplayName | backend/src/services/seo-analyzer.ts:204 | a non-empty mapped name is used; otherwise the domain itself, so the name is empty only for an empty domain |
| SeoAnalyzer.CompetitorRecord | backend/src/services/seo-analyzer.ts:199-219 | competitor `i` has its domain, the website `https://<domain>`, and the backlink and on-page figures at batch position `i + 1`, or zeros when the batch is shorter |
| SeoAnalyzer.AssembleCompetitors | backend/src/services/seo-analyzer.ts:199-219 | one record per competitor domain, in order, record `i` built from position `i + 1` of the batches |
| SeoAnalyzer.RoundDiv | backend/src/services/seo-analyzer.ts:269-274 | `Math.round(a / b)` for a positive divisor: the integer nearest `a / b`, halves rounded up |
| SeoAnalyzer.RoundDivPercent | backend/src/services/seo-analyzer.ts:269-274 | a ratio between 0 and 1 rounds to a percentage between 0 and 100 |
| SeoAnalyzer.RoundDivScale | backend/src/services/seo-analyzer.ts:269 | `Math.round(score / (100 n) * 100)` is `Math.round(score / n)` |
| SeoAnalyzer.RoundReal | backend/src/services/seo-analyzer.ts:277 | `Math.round` of a real: the nearest integer, halves rounded up |
| SeoAnalyzer.KeywordPoints | backend/src/services/seo-analyzer.ts:260-267 | an unranked keyword earns 0, and a ranked one 100, 70, 40, 20 or 10 for positions up to 3, 10, 20, 50 and beyond, each band in both directions |
| SeoAnalyzer.KeywordTotal | backend/src/services/seo-analyzer.ts:256-268 | the keyword points add up to between 0 and 100 per keyword |
| SeoAnalyzer.MaxOf | backend/src/services/seo-analyzer.ts:273 | `Math.max` of a non-empty list is one of its values and no value exceeds it |
| SeoAnalyzer.AllRanks | backend/src/services/seo-analyzer.ts:272 | the practice's domain rank first, then each competitor's in order |
| SeoAnalyzer.OverallScore | backend/src/services/seo-analyzer.ts:280-284 | the weighted score 0.4 k + 0.3 b + 0.3 t, rounded to the nearest integer |
| SeoAnalyzer.SumKeywordPoints | backend/src/services/seo-analyzer.ts:256-268 | the loop's total is `KeywordTotal` |
| SeoAnalyzer.CalculateScores | backend/src/services/seo-analyzer.ts:250-292 | the method computes `ScoresOf`: the keyword, backlink, technical and overall scores |
| SeoAnalyzer.ScoresBounded | backend/src/services/seo-analyzer.ts:250-292 | the keyword score lies in 0..100; no positive domain rank anywhere gives a backlink score of 0; a non-negative practice rank keeps it in 0..100; and then a technical score in 0..100 keeps the overall score in 0..100 |
| SeoAnalyzer.AllTopThree | backend/src/services/seo-analyzer.ts:259-269 | every keyword in the top three gives the full keyword total |
| SeoAnalyzer.NoneRanked | backend/src/services/seo-analyzer.ts:259-269 | no ranked keyword gives a keyword total of 0 |
| SeoAnalyzer.PriorityOrder | backend/src/services/seo-analyzer.ts:364 | the priority order maps to 0..3, with 0 exactly for critical |
| SeoAnalyzer.TopTenKeys | backend/src/services/seo-analyzer.ts:323-324 | the practice's keywords with a known position of at most 10 |
| SeoAnalyzer.Fixed1OfTenths | backend/src/services/seo-analyzer.ts:348 | `toFixed(1)` of a whole number of tenths prints its digits with the point before the last one |
| SeoAnalyzer.AuthorityAdvice | backend/src/services/seo-analyzer.ts:304-309 | the domain-authority advice is high priority, in backlinks, titled "Build Domain Authority" |
| SeoAnalyzer.TechnicalAdvice | backend/src/services/seo-analyzer.ts:314-319 | the technical advice is critical, in technical, titled "Improve Technical SEO" |
| SeoAnalyzer.NoTopTenAdvice | backend/src/services/seo-analyzer.ts:327-332 | the no-top-ten advice is critical, in keywords, titled "No Keywords in Top 10" |
| SeoAnalyzer.KeywordRankingsAdvice | backend/src/services/seo-analyzer.ts:334-339 | the keyword advice is high priority, in keywords, titled "Improve Keyword Rankings" |
| SeoAnalyzer.PageSpeedAdvice | backend/src/services/seo-analyzer.ts:344-349 | the speed advice is high priority, in technical, titled "Improve Page Speed" |
| SeoAnalyzer.ReferringAdvice | backend/src/services/seo-analyzer.ts:355-360 | the referring-domain advice is medium priority, in backlinks, titled "Increase Referring Domains" |
| SeoAnalyzer.Measure | backend/src/services/seo-analyzer.ts:302-354 | each trigger as the source tests it: rank below half the competitor average (never with no competitors), on-page score below 70, the number of top-ten keywords, load time above 3000 ms, referring domains below half the average |
| SeoAnalyzer.RuleList | backend/src/services/seo-analyzer.ts:299-361 | the checks give at most five recommendations |
| SeoAnalyzer.FiredTitlesParts | backend/src/services/seo-analyzer.ts:301-361 | a title is advised exactly when its own condition holds |
| SeoAnalyzer.RulesTitles | backend/src/services/seo-analyzer.ts:301-361 | the checks give the fired titles in check order |
| SeoAnalyzer.GenerateRecommendations | backend/src/services/seo-analyzer.ts:294-368 | at most five recommendations, sorted by priority, holding exactly the recommendations of the checks |
| SeoAnalyzer.GeneratedTitles | backend/src/services/seo-analyzer.ts:294-368 | a title appears in the sorted list exactly when it fired |
| SeoAnalyzer.RecommendationRules | backend/src/services/seo-analyzer.ts:301-361 | each of the six recommendations appears if and only if its trigger holds |
| SeoAnalyzer.KeywordAdviceExclusive | backend/src/services/seo-analyzer.ts:326-340 | "No Keywords in Top 10" and "Improve Keyword Rankings" are never both given |
| SeoAnalyzer.NoCompetitorsNoBacklinkAdvice | backend/src/services/seo-analyzer.ts:302-354 | with no competitors the averages are NaN, the comparisons fail, and no backlinks advice is given |
| SeoAnalyzer.RecommendationsStable | backend/src/services/seo-analyzer.ts:363-365 | the sort is stable: recommendations of one priority keep their check order |
| SeoAnalyzer.TruthyRank | backend/src/services/seo-analyzer.ts:376 | `rank \|\| null`: a missing or zero rank becomes `null`, any other rank is kept |
| SeoAnalyzer.RankedCount | backend/src/services/seo-analyzer.ts:381-387 | no more competitors are counted as ranked than there are competitors |
| SeoAnalyzer.KeywordComparisons | backend/src/services/seo-analyzer.ts:370-403 | one comparison row per keyword, in keyword order |
| SeoAnalyzer.BestIsMinimum | backend/src/services/seo-analyzer.ts:383-391 | when any competitor ranks for the keyword, there is a best competitor whose rank is no worse than any competitor's |
| SeoAnalyzer.BestAttained | backend/src/services/seo-analyzer.ts:383-391 | the best rank and name come from one competitor, and every earlier competitor ranked strictly worse or not at all (ties go to the first) |
| SeoAnalyzer.LeaderIffRanked | backend/src/services/seo-analyzer.ts:383-393 | there is a best competitor exactly when some competitor ranks for the keyword |
| SeoAnalyzer.TotalAtLeast | backend/src/services/seo-analyzer.ts:383-387 | the summed rank is at least the ranked count times any lower bound on the ranks |
| SeoAnalyzer.RoundedAverageAtLeast | backend/src/services/seo-analyzer.ts:400 | a rounded average is at least any lower bound on the values averaged |
| SeoAnalyzer.LeaderNoWorseThanAverage | backend/src/services/seo-analyzer.ts:378-400 | when some competitor ranks, the row has both a best rank and an average, and the best rank is no greater than the average |
| SeoAnalyzer.CompareKeyword | backend/src/services/seo-analyzer.ts:375-402 | the loop over competitors builds the specified comparison row |
| SeoAnalyzer.BuildKeywordComparisons | backend/src/services/seo-analyzer.ts:370-403 | the rows are `KeywordComparisons` |
| SeoAnalyzer.DomainsOf | backend/src/services/seo-analyzer.ts:110-112 | each manual URL gives its domain key, in order |
| SeoAnalyzer.HomePages | backend/src/services/seo-analyzer.ts:141 | each competitor domain gives the URL `https://<domain>`, in order |
| SeoAnalyzer.Discover | backend/src/services/seo-analyzer.ts:104-128 | manual mode uses the URLs' domains named after themselves; auto mode passes on a geocoding or search error, and otherwise gives one domain per competitor found (at most 10), each with a name |
| SeoAnalyzer.FindCompetitors | backend/src/services/seo-analyzer.ts:104-128 | the method's result is `Discover` |
| SeoAnalyzer.CompetitorRankingsOf | backend/src/services/seo-analyzer.ts:151-171 | one map per competitor domain, each holding `CompetitorRankings` of the results |
| SeoAnalyzer.Analysis | backend/src/services/seo-analyzer.ts:96-239 | at least one progress report is made, and a finished report has made all seven, from 10% to 100% |
| SeoAnalyzer.Analyze | backend/src/services/seo-analyzer.ts:96-239 | the method's result is `Analysis`, and it reports exactly that many progress steps, in order |
| SeoAnalyzer.BuildReport | backend/src/services/seo-analyzer.ts:149-238 | after the provider calls: reconciling the rankings, failing on an empty backlink or on-page batch, and building the report give `Assemble`, with the progress reports made so far |
| SeoAnalyzer.ManualModeSkipsPlaces | backend/src/services/seo-analyzer.ts:109-113 | in manual mode the places provider is never consulted |
| SeoAnalyzer.AutoModeNeedsKey | backend/src/services/seo-analyzer.ts:114-117 | auto mode without a places key fails after the first report with "Google Places API key not configured" |
| SeoAnalyzer.CompletedAnalysis | backend/src/services/seo-analyzer.ts:104-224 | a finished analysis went through successful discovery and non-empty backlinks and on-page batches, and its report is the assembly of those results |
| SeoAnalyzer.AssembledShape | backend/src/services/seo-analyzer.ts:177-238 | the report carries the id, time, name and website; the practice domain; one competitor per domain with `https://<domain>`; one keyword row per keyword in order; at most five recommendations sorted by priority; a keyword score in 0..100 |
| SeoAnalyzer.ReportShape | backend/src/services/seo-analyzer.ts:96-238 | a finished analysis has that shape for the practice's own domain key, the discovered domains and the 18 keywords |
| SeoAnalyzer.ManualCompetitorsFollowList | backend/src/services/seo-analyzer.ts:109-206 | in manual mode the report has one competitor per URL, in order, each with that URL's domain as its name |
| AnalysisRoutes.MessageOr | backend/src/routes/analysis.ts:83 | `error.message \|\| fallback`: an empty message is replaced by the fallback |
| AnalysisRoutes.ValidateStart | backend/src/routes/analysis.ts:24-56 | a start request is accepted exactly when name, address and website are non-empty, the mode is `auto` or `manual`, and a manual request has a list of 1 to 10 URLs; each rejection carries the source's message, checked in the source's order; an accepted request keeps the body's fields |
| AnalysisRoutes.StartReply | backend/src/routes/analysis.ts:22-85 | a rejected start answers 400 with the validation message; an accepted one answers 200 with the job id, `pending` and "Analysis started" |
| AnalysisRoutes.FromEntries | backend/src/routes/analysis.ts:245-249 | `Object.fromEntries` of a rankings map: one property per keyword, holding that keyword's position (a missing keyword appears as `"undefined"`) |
| AnalysisRoutes.ToRankings | backend/src/routes/analysis.ts:245-249 | reading a rankings object back gives one keyword entry per property, with the same positions |
| AnalysisRoutes.RankingsRoundTrip | backend/src/routes/analysis.ts:245-249 | a map keyed by keywords survives serialization and reading back unchanged |
| AnalysisRoutes.ObjectRoundTrip | backend/src/routes/analysis.ts:245-249 | a rankings object read in and serialized again is unchanged |
| AnalysisRoutes.SerializeCompetitor | backend/src/routes/analysis.ts:243-250 | the serialized record keeps every field and turns the rankings map into an object |
| AnalysisRoutes.SerializeCompetitors | backend/src/routes/analysis.ts:247-250 | one serialized record per competitor, in order |
| AnalysisRoutes.SerializeReport | backend/src/routes/analysis.ts:240-252 | the serialized report keeps the id, name, website, time, scores, recommendations and keyword rows, and serializes the practice and each competitor |
| AnalysisRoutes.DeserializeReport | backend/src/routes/analysis.ts:240-252 | reading a serialized report back gives one competitor per serialized competitor, in order |
| AnalysisRoutes.ReportRoundTrip | backend/src/routes/analysis.ts:240-252 | serialization loses nothing: a report whose maps are keyed by keywords is read back unchanged |
| AnalysisRoutes.Reports | backend/src/routes/analysis.ts:221-224 | one job view per progress report |
| AnalysisRoutes.ReportsAt | backend/src/routes/analysis.ts:221-224 | the `i`-th view after reports shows the `i`-th step's message and percentage |
| AnalysisRoutes.Trace | backend/src/routes/analysis.ts:208-235 | the views a job passes through: the job as it was, then processing, one per report, and the processed job last |
| AnalysisRoutes.TraceFollowsLifecycle | backend/src/routes/analysis.ts:208-235 | a new job only moves pending → processing → completed or failed, and its progress never goes down |
| AnalysisRoutes.TraceStep | backend/src/routes/analysis.ts:208-235 | each single step of the trace is an allowed status change and does not lower the progress |
| AnalysisRoutes.ProcessedJob | backend/src/routes/analysis.ts:220-234 | a finished run is completed exactly when the analysis succeeded, with progress 100, "Analysis complete!" and the serialized report; otherwise failed, at the last reported step, with a non-empty error and no new result |
| AnalysisRoutes.Job.constructor | backend/src/routes/analysis.ts:60-65 | a new job is pending at 0% with "Starting analysis..." |
| AnalysisRoutes.Job.Begin | backend/src/routes/analysis.ts:218 | the job's status becomes processing and nothing else changes |
| AnalysisRoutes.Job.Report | backend/src/routes/analysis.ts:221-224 | a progress report sets the message and percentage and nothing else |
| AnalysisRoutes.Job.ReportAll | backend/src/routes/analysis.ts:221-224 | after the reports the job shows the last step; the ghost views are the job after each report |
| AnalysisRoutes.Job.Complete | backend/src/routes/analysis.ts:226-229 | the job is completed at 100% with "Analysis complete!" and the report |
| AnalysisRoutes.Job.Fail | backend/src/routes/analysis.ts:230-233 | the job is failed with the error message, or "Analysis failed" when it is empty |
| AnalysisRoutes.JobStore.constructor | backend/src/routes/analysis.ts:9-16 | the store starts empty |
| AnalysisRoutes.JobStore.ViewOf | backend/src/routes/analysis.ts:93 | a job is found exactly when its id is stored |
| AnalysisRoutes.JobStore.Start | backend/src/routes/analysis.ts:22-85 | the reply is `StartReply`; a rejected request stores nothing; an accepted one adds exactly one new pending job under the new id and leaves every other job as it was |
| AnalysisRoutes.JobStore.ProcessAnalysis | backend/src/routes/analysis.ts:208-235 | an unknown id does nothing; otherwise the job ends as `Processed` of the analysis outcome, and the views it passed through are `Trace` of that outcome |
| AnalysisRoutes.TraceOfReports | backend/src/routes/analysis.ts:215-234 | the views recorded by the processing run (start, processing, each report, end) are the trace |
| AnalysisRoutes.StatusReply | backend/src/routes/analysis.ts:91-105 | an unknown job answers 404 "Job not found"; a known one answers 200 with its id, status, progress and message |
| AnalysisRoutes.ReportReply | backend/src/routes/analysis.ts:111-134 | 404 for an unknown job, 500 with its error (or "Analysis failed") for a failed one, 202 with status and progress while pending or processing, and 200 with the result once completed |
| AnalysisRoutes.ReportAfterProcessing | backend/src/routes/analysis.ts:111-134 | after processing, the report route answers 200 with the serialized report exactly when the analysis succeeded, and 500 with the analysis error otherwise |
| AnalysisRoutes.Preview | backend/src/routes/analysis.ts:153-160 | a preview keeps name, address and website, and has a domain exactly when the website is non-empty, namely that website's key |
| AnalysisRoutes.DiscoverReply | backend/src/routes/analysis.ts:140-166 | no address answers 400 "Address is required"; a geocoding or search failure answers 500 with its message, or "Failed to discover competitors" when it is empty; otherwise 200 with the geocoded location and one `Preview` per competitor `DentalCompetitors` finds around it, at most 10, each with a domain; no other status is used |
| AnalysisRoutes.CheckUrl | backend/src/routes/analysis.ts:180-196 | a string URL is valid and gets its domain key (which has no `/`); anything else is invalid with "Invalid URL format" |
| AnalysisRoutes.ValidateUrlsReply | backend/src/routes/analysis.ts:172-203 | a missing or non-array `urls` answers 400 "urls array is required"; otherwise 200 with one check per item, in order |
| AnalysisRoutes.StringUrlsAllValid | backend/src/routes/analysis.ts:180-198 | a list of strings is all valid, each with its domain key |
| FlaskProviders.ExtractDomain | backend/src/app.py:198-208 | an empty or missing URL gives `None` and only then; a URL the parser rejects is returned unchanged |
| FlaskProviders.KeyOfParsed | backend/src/app.py:204-206 | a parsed URL keys to its network location (or the first path segment when that is empty) with every `www.` removed |
| FlaskProviders.DomainOfNetloc | backend/src/app.py:204-206 | an `http://` or `https://` URL keys to its network location with every `www.` removed, whatever path follows |
| FlaskProviders.DomainOfUrl | backend/src/app.py:204-206 | a URL whose host holds no `www.` keys to that host |
| FlaskProviders.BareHostKey | backend/src/app.py:204-206 | a bare host without `www.` gets `https://` put in front and keys to itself |
| FlaskProviders.WwwHostKey | backend/src/app.py:206 | `www.<host>` with any web scheme and path keys to `<host>` |
| FlaskProviders.WwwRemoved | backend/src/app.py:206 | `str.replace` removes a leading `www.` from a host holding no other `www.` |
| FlaskProviders.OnePassMayLeaveWww | backend/src/app.py:206 | `str.replace` makes one pass, so removing `www.` can leave a new `www.`: `wwwww.w.` keys to `www.` |
| FlaskProviders.GeocodeAddress | backend/src/app.py:74-89 | it succeeds exactly when the status is `OK` and there is a first result, whose coordinates and address it returns; a status other than `OK` fails with `Geocoding failed: <status>` (an `OK` reply with no result fails too, as the source's index error) |
| FlaskProviders.CandidatesFrom | backend/src/app.py:126-139 | at most one candidate per place, each with a non-empty website and a domain |
| FlaskProviders.CandidateFound | backend/src/app.py:127-139 | every candidate is the record of a place whose details gave a website |
| FlaskProviders.CandidateKept | backend/src/app.py:127-139 | every place whose details give a website yields a candidate |
| FlaskProviders.SelectCompetitors | backend/src/app.py:141-143 | the five most reviewed candidates (all of them when fewer), in non-increasing review count, each one a candidate, and with five or fewer candidates exactly the candidates |
| FlaskProviders.Pool | backend/src/app.py:127 | only the first 15 places of the search are looked at |
| FlaskProviders.DentalCompetitors | backend/src/app.py:103-143 | it fails exactly when the status is neither `OK` nor `ZERO_RESULTS`, with `Places API error: <status>`; otherwise it returns min(5, candidates) competitors from the first 15 places, each with a website and domain, in non-increasing review count, all of them when there are at most five |
| FlaskProviders.FindDentalCompetitors | backend/src/app.py:103-143 | the loop over the places agrees with `DentalCompetitors` for the search keyword of the practice type |
| FlaskProviders.CompetitorFromPool | backend/src/app.py:127-143 | every competitor returned comes from one of the first 15 places, one whose details gave a website |
| FlaskProviders.FewCandidatesAllKept | backend/src/app.py:127-143 | with at most five candidates, every place among the first 15 with a website is returned |
| FlaskProviders.SelectionStable | backend/src/app.py:142 | Python's sort is stable: candidates with the same review count keep their search order |
| FlaskProviders.SelectionKeepsMostReviewed | backend/src/app.py:142-143 | a candidate left out has no more reviews than any competitor kept |
| FlaskProviders.LookupPracticeReviews | backend/src/app.py:163-195 | when the text search answers `OK` with a result, the first result's name (or the practice name when it has none), rating and review count (0 when missing); otherwise the practice name, no rating and 0 reviews |
| FlaskProviders.OrganicRankingsAreOrganicItems | backend/src/app.py:231-237 | the rankings are the organic items of the reply, one each and in order |
| FlaskProviders.KeywordRankings | backend/src/app.py:211-248 | one result per keyword, in order; a successful task gives the organic rankings of its items; a failed or raising request gives that keyword no rankings rather than an error |
| FlaskProviders.GetKeywordRankings | backend/src/app.py:211-248 | the loop's results are `KeywordRankings` |
| FlaskProviders.BacklinksOf | backend/src/app.py:260-291 | the record carries the requested domain; a failed or raising request gives zeros; otherwise the first result's rank, backlinks and referring domains, 0 when missing |
| FlaskProviders.BacklinksSummary | backend/src/app.py:251-293 | one record per domain, in order, each `BacklinksOf` its own reply |
| FlaskProviders.GetBacklinksSummary | backend/src/app.py:251-293 | the loop's records are `BacklinksSummary`, each carrying its requested domain |
| FlaskProviders.OnPageOf | backend/src/app.py:310-324 | the record carries the requested URL; a successful task gives its first item's score, title and status code (0 or `''` when missing); a failed task or one without items gives the empty record |
| FlaskProviders.OnPageAnalysis | backend/src/app.py:296-326 | a raising request fails with its message; more tasks than URLs fail with "list index out of range"; otherwise one record per task, record `i` for URL `i` |
| FlaskProviders.GetOnPageAnalysis | backend/src/app.py:296-326 | the loop's result is `OnPageAnalysis` |
| FlaskProviders.FirstOrganic | backend/src/app.py:361-367 | the first organic item, if any: none exactly when no item is organic |
| FlaskProviders.ListingOf | backend/src/app.py:340-390 | the listing names its directory, domain and importance; it is found exactly when the search succeeded with an organic result; it carries an error exactly when the request raised, and then the raised message; a found listing carries the url and title of the first organic result, one not found neither |
| FlaskProviders.DirectoryListings | backend/src/app.py:329-392 | one listing per directory, in the directories' order, each the `ListingOf` that directory's site search for the practice name |
| FlaskProviders.CheckDirectoryListings | backend/src/app.py:329-392 | the loop's listings are `DirectoryListings` |
| FlaskAnalysis.KeywordsFor | backend/src/app.py:44-65 | one keyword per curated template, in template order |
| FlaskAnalysis.ReplaceTail | backend/src/app.py:610 | replacing every `{city}` in a template that ends in its only placeholder gives the prefix followed by the city |
| FlaskAnalysis.CityKeyword | backend/src/app.py:610 | a template ending in `{city}` becomes its prefix followed by the extracted city |
| FlaskAnalysis.CityKeywords | backend/src/app.py:44-65 | the fourth keyword is `dentist in <city>` and the twentieth `best dentist in <city>` |
| FlaskAnalysis.FixedKeyword | backend/src/app.py:610 | a template without a placeholder is used unchanged |
| FlaskAnalysis.DropStateCode | backend/src/app.py:600-602 | a city whose last of several words is two upper-case letters loses that word; any other city is kept as it is |
| FlaskAnalysis.StateCodeDropped | backend/src/app.py:600-602 | after the state code is dropped the words of the city are exactly its words without the last |
| FlaskAnalysis.ExtractCity | backend/src/app.py:595-605 | an address without a comma is its own (trimmed) city |
| FlaskAnalysis.CityOfParts | backend/src/app.py:595-602 | an address of two or more comma-separated parts yields its second part, trimmed, with any state code dropped |
| FlaskAnalysis.EntriesOf | backend/src/app.py:643-644 | one entry per ranking of a keyword result, carrying that keyword, position and domain |
| FlaskAnalysis.CompetitorMaps | backend/src/app.py:641 | there is a position map for exactly the competitor domains |
| FlaskAnalysis.RankMapKeys | backend/src/app.py:643-647 | a keyword has a position for a domain exactly when some ranking of that keyword names that domain |
| FlaskAnalysis.RankMapLast | backend/src/app.py:643-647 | a domain's position for a keyword is the one of the last ranking naming that domain and keyword |
| FlaskAnalysis.ProcessRankings | backend/src/app.py:640-649 | the loop over results and rankings builds the practice's position map and every competitor's map as the specification functions define them; a competitor that is also the practice gets no positions |
| FlaskAnalysis.ManualCandidate | backend/src/app.py:586-587 | a manual competitor's name and domain are the domain of its URL, its website `https://` plus that domain, with no rating and no reviews |
| FlaskAnalysis.ManualCandidates | backend/src/app.py:585-587 | one candidate per manual URL, in order |
| FlaskAnalysis.CompetitorDomains | backend/src/app.py:588-592 | the non-empty domains of the competitors that have one, in order |
| FlaskAnalysis.HomePages | backend/src/app.py:624 | one `https://<domain>` URL per competitor domain, in order |
| FlaskAnalysis.RecordsAsWritten | backend/src/app.py:664-676 | the `i`-th competitor's record takes the batch entries at position `i + 1`, or the placeholders beyond their ends |
| FlaskAnalysis.AsWrittenWhenAllHaveDomains | backend/src/app.py:664-676 | when every competitor has a domain the records as written equal the aligned records |
| FlaskAnalysis.MisalignedAsWritten | backend/src/app.py:617-618 | with manual competitors `""` and `b.com` the first record (no domain) gets `b.com`'s backlinks and `b.com` gets the placeholder |
| FlaskAnalysis.RecordsAligned | backend/src/app.py:617-625 | the aligned records carry each competitor's own backlinks and on-page page |
| FlaskAnalysis.TruncDiv | backend/src/app.py:413 | division truncated toward zero, as `int()` of a quotient |
| FlaskAnalysis.TruncReal | backend/src/app.py:421 | `int()` of a real: the integer part, truncated toward zero |
| FlaskAnalysis.KeywordPoints | backend/src/app.py:402-411 | no points for a missing or zero position, 100 exactly for positions 1 to 3, never more than 100 |
| FlaskAnalysis.KeywordTotal | backend/src/app.py:398-411 | the summed points lie between 0 and 100 per keyword |
| FlaskAnalysis.MaxOf | backend/src/app.py:417 | the largest of the ranks: one of them and at least every other |
| FlaskAnalysis.AllRanks | backend/src/app.py:416 | the practice's domain rank followed by each competitor's |
| FlaskAnalysis.CalculateScores | backend/src/app.py:395-431 | the keyword loop and the three normalised parts give the scores of the scoring function |
| FlaskAnalysis.KeywordShare | backend/src/app.py:413 | the keyword score out of `100 * n` points equals the average points per keyword |
| FlaskAnalysis.ScoresBounded | backend/src/app.py:395-431 | with non-negative ranks the keyword and backlinks scores lie in 0..100, and so does the overall score when the technical score does |
| FlaskAnalysis.AllTopThree | backend/src/app.py:404-405 | a practice in the top three for every keyword scores the full total |
| FlaskAnalysis.NoneRanked | backend/src/app.py:401-403 | a practice ranked for no keyword scores nothing |
| FlaskAnalysis.KeywordRows | backend/src/app.py:686-703 | one row per keyword, in keyword order, carrying the practice's position for it and the keyword's leader: no leader when no competitor has a truthy position, else the smallest truthy position and the name of the first competitor holding it |
| FlaskAnalysis.RowLeader | backend/src/app.py:690-696 | the leader columns of a row are the smallest truthy competitor position and the first competitor holding it, or none |
| FlaskAnalysis.BestIsMinimum | backend/src/app.py:692-696 | when some competitor ranks for a keyword there is a leader, and its position is no worse than any ranked competitor's |
| FlaskAnalysis.BestAttained | backend/src/app.py:692-696 | the leader's position and name are those of a competitor, the first one that holds the best position |
| FlaskAnalysis.LeaderIffRanked | backend/src/app.py:692-696 | a keyword has a leader exactly when some competitor ranks for it |
| FlaskAnalysis.BuildKeywordRows | backend/src/app.py:686-703 | the nested loop builds the keyword table of the specification function |
| FlaskAnalysis.TopFive | backend/src/app.py:707-709 | `min(5, number of rows)` rows, a sub-multiset of the rows and the front of their stable sort by position, all of them when there are five or fewer |
| FlaskAnalysis.TopFiveBest | backend/src/app.py:707-709 | every row left out of the top five has a position no better than any row in it |
| FlaskAnalysis.ToImprove | backend/src/app.py:711-719 | `min(5, unranked + poorly ranked)` rows: the unranked rows first, in keyword order, then the front of the rows ranked past 10 stably sorted by position |
| FlaskAnalysis.Summarize | backend/src/app.py:705-726 | counts the keywords and the ranked rows; the top five ranked are the front of the ranked rows stably sorted by position; the rows to improve are the unranked rows first, in keyword order, then the front of the rows ranked past 10 stably sorted by position |
| FlaskRecommendations.HalfMean | backend/src/app.py:439-440 | being below half the competitor mean (0 without competitors) is an integer comparison of the practice's figure with the sum |
| FlaskRecommendations.BelowMean | backend/src/app.py:505 | being below the mean is the integer comparison `x * n < sum` |
| FlaskRecommendations.Ranks | backend/src/app.py:439 | the competitors' domain ranks, in order |
| FlaskRecommendations.Referring | backend/src/app.py:475 | the competitors' referring-domain counts, in order |
| FlaskRecommendations.ReviewCounts | backend/src/app.py:486 | the non-zero review counts, empty exactly when no competitor has reviews |
| FlaskRecommendations.Ratings | backend/src/app.py:515 | the non-zero ratings, empty exactly when no competitor has a rating |
| FlaskRecommendations.TopTenKeys | backend/src/app.py:458 | the keywords with a truthy position of at most 10; none exactly when no position is in the top ten |
| FlaskRecommendations.MissingNames | backend/src/app.py:536-537 | empty exactly when no directory of that importance is missing |
| FlaskRecommendations.FoundCount | backend/src/app.py:539 | the found directories, at most all of them |
| FlaskRecommendations.StarsText | backend/src/app.py:524 | a rating in tenths is printed as its whole stars, a dot and its tenths digit |
| FlaskRecommendations.BacklinkCheck | backend/src/app.py:439-440 | a figure is low exactly when it is below half the competitor mean |
| FlaskRecommendations.ReviewCheck | backend/src/app.py:485-511 | with competitor reviews: none, few (below half the mean) or below the mean, each excluding the earlier ones |
| FlaskRecommendations.RatingCheck | backend/src/app.py:514-532 | with a practice rating and competitor ratings: low below 4.0 stars, else below the competitor mean less 0.3 |
| FlaskRecommendations.DirectoryCheck | backend/src/app.py:535-566 | names the missing critical and high directories, and flags presence below half of the listings |
| FlaskRecommendations.ReviewsBelowMean | backend/src/app.py:498-505 | the review thresholds as integer comparisons with the sum |
| FlaskRecommendations.RatingBelowMean | backend/src/app.py:526 | the rating threshold as an integer comparison in tenths |
| FlaskRecommendations.TitlesDistinct | backend/src/app.py:434-568 | two kinds of advice share a title only when they are the same kind |
| FlaskRecommendations.RulesTitles | backend/src/app.py:434-568 | the titles of the generated advice are the titles of the rules that fire, in check order |
| FlaskRecommendations.AdvisedKind | backend/src/app.py:434-568 | an advice is given exactly when its rule fires |
| FlaskRecommendations.BacklinkRules | backend/src/app.py:439-482 | `Build Domain Authority` and `Increase Referring Domains` are given exactly when the practice is below half the competitor mean |
| FlaskRecommendations.TechnicalKeywordRules | backend/src/app.py:449-472 | technical advice exactly below an on-page score of 70; `No Keywords in Top 10` exactly without a top-ten position; `Improve Keyword Rankings` exactly for one or two |
| FlaskRecommendations.ReviewRules | backend/src/app.py:485-511 | each of the three review advices is given exactly in its branch of the review check |
| FlaskRecommendations.RatingRules | backend/src/app.py:514-532 | each of the two rating advices is given exactly in its branch of the rating check |
| FlaskRecommendations.MissingCriticalRule | backend/src/app.py:542-549 | advised exactly when a critical directory is missing |
| FlaskRecommendations.MissingKeyRule | backend/src/app.py:551-558 | advised exactly when a high-importance directory is missing |
| FlaskRecommendations.LowPresenceRule | backend/src/app.py:560-566 | advised exactly when fewer than half the directories are found |
| FlaskRecommendations.GeneratedInCheckOrder | backend/src/app.py:434-568 | the recommendations come in the order the checks are made |
| FlaskRecommendations.ReviewAdviceExclusive | backend/src/app.py:491-532 | at most one review advice and at most one rating advice is given |
| FlaskRecommendations.NoCompetitorsAdvice | backend/src/app.py:439-516 | without competitors no review or rating advice is given, and backlink advice only for a negative figure |
| FlaskJobs.Competitors | backend/src/app.py:585-590 | a non-empty manual list in manual mode gives its candidates; otherwise a geocoding failure fails the step, and success gives at most the candidate cap |
| FlaskJobs.FindCompetitors | backend/src/app.py:585-590 | the branch on the mode computes the competitors of the specification function |
| FlaskJobs.PracticeDomain | backend/src/app.py:576 | a non-empty website always has a domain key |
| FlaskJobs.Assemble | backend/src/app.py:651-743 | the report carries the job id, the practice's name and website, one keyword row per search keyword and one listing per directory |
| FlaskJobs.Analysis | backend/src/app.py:571-748 | the analysis makes at most the six progress updates |
| FlaskJobs.AnalysisOutcomes | backend/src/app.py:578-748 | a competitor failure ends after the first update with its message; an on-page failure ends after the third; the run succeeds exactly when it makes all six updates, with the job id, 20 keyword rows, 10 listings and at most the candidate cap of Places competitors |
| FlaskJobs.CompetitorRecordsBound | backend/src/app.py:664-676 | one competitor record per competitor |
| FlaskJobs.ManualModeSkipsPlaces | backend/src/app.py:585-587 | in manual mode the outcome does not depend on the geocoder, the nearby search or the details lookup |
| FlaskJobs.GeocodingFailure | backend/src/app.py:74-89 | a geocoder status other than `OK` fails the job after the first update with `Geocoding failed: <status>` |
| FlaskJobs.Trace | backend/src/app.py:571-748 | the job passes from its state before the run, through one state per update, to its final state |
| FlaskJobs.TraceFollowsLifecycle | backend/src/app.py:571-748 | from a new job every change of state is an allowed status change and progress never decreases |
| FlaskJobs.ProcessedJob | backend/src/app.py:728-747 | a successful run completes the job at 100% with the completion message and the report; a failed one keeps the last update and records the error |
| FlaskJobs.PyJob.Advance | backend/src/app.py:579-580 | a progress update sets the percentage and the message and nothing else |
| FlaskJobs.PyJob.Complete | backend/src/app.py:729-743 | completion sets the status, 100%, the completion message and the result |
| FlaskJobs.PyJob.Fail | backend/src/app.py:745-747 | failure sets the status and the error and keeps the progress |
| FlaskJobs.RequestOf | backend/src/app.py:776-781 | an accepted request has a website, and is in manual mode exactly when the body asks for it with a non-empty list |
| FlaskJobs.StartReply | backend/src/app.py:783-799 | 400 with `Missing required fields` exactly when a required field is missing or empty; otherwise 200 with the job id and `processing` |
| FlaskJobs.JobStore.ViewOf | backend/src/app.py:805-806 | a job is found exactly when its id is in the store |
| FlaskJobs.JobStore.Start | backend/src/app.py:771-799 | a rejected body changes nothing; an accepted one adds exactly one new job in its initial state and leaves the others |
| FlaskJobs.JobStore.RunAnalysis | backend/src/app.py:571-748 | the job ends in the processed state of the analysis' outcome, through the states of its trace; an unknown id changes nothing |
| FlaskJobs.PyJob.Run | backend/src/app.py:571-748 | the job ends in the processed state of the analysis' outcome, and the states it shows are that outcome's trace |
| FlaskJobs.PyJob.FindingStep | backend/src/app.py:578-592 | the first update (10%, `Finding competitors...`) is shown, then the practice's reviews and the competitors are looked up |
| FlaskJobs.PyJob.AuditStep | backend/src/app.py:613-625 | the second and third updates are shown in order; the backlinks cover the practice's domain then each competitor domain, and the on-page batch the practice's URL then each competitor homepage |
| FlaskJobs.PyJob.RankStep | backend/src/app.py:627-637 | the fourth and fifth updates are shown in order; the rankings cover every keyword and the listings every directory |
| FlaskJobs.PyJob.ReportStep | backend/src/app.py:627-726 | the fourth to sixth updates are shown in order, and the report is the assembled report |
| FlaskJobs.BuildRecords | backend/src/app.py:639-676 | the rank maps come from the flattened keyword results; the practice record and the competitor records are built from the batches as written |
| FlaskJobs.BuildReport | backend/src/app.py:678-743 | the report carries the scores, recommendations, keyword rows and summary computed from the records, with the listings |
| FlaskJobs.FailsFinding | backend/src/app.py:578-590 | when no competitors can be found the analysis fails with that error after the first update |
| FlaskJobs.FailsOnPage | backend/src/app.py:620-625 | when the on-page batch raises the analysis fails with that error after the third update |
| FlaskJobs.Completes | backend/src/app.py:578-743 | with the competitors and the on-page records in hand the analysis completes after all six updates with the assembled report |
| FlaskJobs.Reaching | backend/src/app.py:579-680 | each further progress update extends the states shown by one |
| FlaskJobs.TraceIs | backend/src/app.py:571-748 | the states shown followed by the final one are the trace |
| FlaskJobs.StatusReply | backend/src/app.py:802-814 | 404 with `Job not found` exactly for an unknown id; otherwise 200 with the status, progress and message |
| FlaskJobs.ReportReply | backend/src/app.py:817-830 | 404 for an unknown id, 500 with the error for a failed job, 202 while processing, 200 with the report when completed (and JSON `null` for a completed job without one) |
| FlaskJobs.ReportAfterRun | backend/src/app.py:817-830 | after a run the report endpoint returns the report on success and 500 with the error message on failure |
| FlaskJobs.DiscoverReply | backend/src/app.py:833-847 | 400 without an address, 500 with the geocoding message, 500 with the search's message when the competitor search fails, otherwise 200 with the location and the competitors found around it, at most the candidate cap |
| Text.AsciiLower | backend/src/services/google-places.ts:116 | same length, each ASCII capital lowered and every other character kept |
| Text.Split | backend/src/app.py:595 | the pieces contain no separator and joined with it give back the string |
| Text.SplitJoin | backend/src/services/seo-analyzer.ts:243 | splitting a join of separator-free pieces gives back the pieces |
| Text.Trim | backend/src/app.py:595-598 | the result is a slice of the input with only whitespace removed at either end, and starts and ends with no whitespace |
| Text.SplitWordsJoin | backend/src/app.py:600-602 | splitting words that were joined by single spaces gives back the words |
| Text.ReplaceFirst | backend/src/services/seo-analyzer.ts:132 | without an occurrence the string is kept; otherwise the first occurrence is replaced and the rest kept |
| StableSort.SortBy | backend/src/app.py:708-715 | a sorted permutation of the input |
| StableSort.SortByStable | backend/src/services/google-places.ts:147 | the elements with the same key keep their relative order |

## Left out

- HTTP transport, the background thread, the two-second wait before a page token is used, job ids, timestamps, logging and the configuration constants: each service call is a function parameter, the job runs to completion inside `RunAnalysis`/`ProcessAnalysis`, and ids are inputs.
- FlaskRecommendations.Fixed1: rounds the exact value, ties upward; `f"{x:.1f}"` rounds the binary double, so competitor ratings 4.7 and 5.0 average to a double just below 4.85 that app.py prints as "4.8" where the model prints "4.9".
- SeoAnalyzer.Tenths: rounds the exact value, ties upward; `toFixed(1)` works on the binary double, so a load time of 3050 ms gives `(3050/1000).toFixed(1)` = "3.0" in the source where the model gives "3.1".
- The miles-to-metres conversion of the search radius: the radius is passed through as the provider parameter it becomes.
- The concurrent place-details lookups (`Promise.all`) are made one after another, in the order of the places; the results are the same because each lookup is independent.
- FlaskRecommendations.StarsText: always prints a tenths digit; app.py prints `{practice_rating}` as the Places JSON gave it, so a whole-star rating sent as the integer `3` reads "Your 3-star rating is below the 4.0 threshold…" in app.py and "Your 3.0-star rating…" in the model (ratings sent as `3.0` print alike).
- Floating point: on-page scores, load times and coordinates are `real`; Python star ratings are integer tenths of a star. The double rounding of the source is not modelled (lines below).
- FlaskAnalysis.ScoresOf: computed exactly, while Python computes in doubles; at an exact boundary the source can give one less. Keyword score at totals 580, 1140 and 1160 out of 2000 gives 28, 56 and 57 in the source and 29, 57 and 58 here; backlinks at rank 57 of 100 gives 56 in the source and 57 here; overall with keywords 0, backlinks 1 and technical 9 gives 2 in the source and 3 here.
- FlaskAnalysis.CalculateScores: the same as `FlaskAnalysis.ScoresOf`, which it is proved to compute.
- SeoAnalyzer.RoundDiv: `Math.round(a / b * 100)` is computed exactly; where the double lands just below an exact half the source rounds down. Keyword totals 290, 570, 1130 and 1150 out of 2000 give one less in the source (290 gives 14, here 15), and so does backlinks 23 of 40.
- SeoAnalyzer.KeywordPoints: the points themselves are exact; the normalised keyword score built from them inherits the rounding difference of `SeoAnalyzer.RoundDiv`.
- SeoAnalyzer.OverallScore: the weighted sum is exact; with keywords 0, backlinks 1 and technical 24 the source's doubles round one lower than the model.
- SeoAnalyzer.CalculateScores: inherits the differences of `SeoAnalyzer.RoundDiv` and `SeoAnalyzer.OverallScore`.
- FlaskRecommendations.BacklinkCheck: the averages are `real` division where the source divides doubles, so a comparison that lands exactly on its threshold may go the other way in the source; the same holds for `FlaskRecommendations.ReviewCheck` and `FlaskRecommendations.RatingCheck`.
- Text.IsSpace: only tab, line feed, vertical tab, form feed, carriage return and space; Python `strip`/`split` also remove the ASCII separators U+001C to U+001F, and both Python and JavaScript `trim` also remove U+00A0 and the other Unicode spaces.
- Text.IsUpperWord: only ASCII capitals; Python `isupper` accepts any cased Unicode letter.
- Text.AsciiLower: stands in for JavaScript `toLowerCase`, lowering ASCII capitals only.
- GooglePlaces.ExtractDomain: the WHATWG URL parser is abstracted to "the text after the scheme up to the first `/`, `?`, `#` or `\`, without a port, lower-cased"; it does not handle userinfo (`user@foo.com` should key to `foo.com` but keys to `user@foo.com`), a non-numeric port (`foo.com:abc`, which the parser rejects), or a scheme without slashes (`http:foo.com`).
- FlaskProviders.ExtractDomain: the `urlparse` model does not remove tab, CR and LF, strip leading C0 control characters, split `;` parameters, or check bracketed (IPv6) or NFKC-normalised hosts.
- SeoAnalyzer.KeywordsFor: the replacement text is inserted literally; JavaScript `replace` would interpret `$&`, `$1` and other `$` patterns in a city name.
- Wrappers.Option.GetOr: a field that is present but null counts as missing. In Python a null provider field makes `int(None)` or `max` over a list holding `None` raise, and the job fails at progress 90; the model cannot reach that failure.
- GooglePlaces.GeocodeAddress: the geocoding, nearby-search and details replies (`GeocodeReply`, `NearbyReply`, `DetailsReply`) have no variant for a transport exception, and neither does the Python nearby search (`FlaskProviders.PlacesPage`); a thrown request error is not modelled for these calls.
- The frontend and the embeddable widget (rendering, polling), the Express and Flask wiring and the static routes are not part of this model.

## Findings

| source | as written | input that shows it | evidently intended | confidence | as-written member | corrected member |
|---|---|---|---|---|---|---|
| backend/src/app.py:586-592,617-618,665-671 | the backlink and on-page batches are requested for the competitors that have a domain, but record `i` of ALL competitors takes batch entry `i + 1` | manual competitors `["", "b.com"]`: the first record (no domain) gets `b.com`'s backlinks and `b.com` gets the placeholder | each competitor record carries its own domain's figures | high, not executed | FlaskAnalysis.MisalignedAsWritten | FlaskAnalysis.RecordsAligned |

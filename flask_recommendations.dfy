/**
 * The recommendations of the Python backend (`generate_recommendations` in
 * backend/src/app.py). The checks run in a fixed order and each appends at
 * most one recommendation; the list is not sorted afterwards. Averages are
 * Python true divisions, computed here on `real` where the source uses
 * doubles, so a comparison that lands exactly on its threshold may come out
 * the other way in the source. Star ratings are integer tenths of a star.
 */
module FlaskRecommendations {
  import opened Wrappers
  import opened Text
  import P = FlaskProviders
  import A = FlaskAnalysis

  datatype Priority = Critical | High | Medium

  datatype Category = Backlinks | Technical | Keywords | Reviews | Citations

  /**
   * A recommendation: its priority, category and title, and the figures its
   * text prints; `Description` renders the text as the source formats it,
   * except for the one-decimal rounding ties and (Python) whole-star ratings
   * listed in the project's notes on what is left out.
   */
  datatype Recommendation = Recommendation(priority: Priority, category: Category, title: string, detail: Detail)

  /** The figures a recommendation's text prints, one variant per kind of text. */
  datatype Detail =
    | AuthorityDetail(rank: int, average: int)
    | TechnicalDetail(score: int)
    | NoTopTenDetail
    | KeywordRankingsDetail(topTen: int)
    | ReferringDetail(referring: int, average: int)
    | NoReviewsDetail(average: int)
    | IncreaseReviewsDetail(reviews: int, average: int)
    | MoreReviewsDetail(reviews: int, average: int, most: int)
    | ImproveRatingDetail(rating: int)
    | BoostRatingDetail(rating: int, averageStars: real)
    | MissingCriticalDetail(names: seq<string>)
    | MissingKeyDetail(names: seq<string>)
    | LowPresenceDetail(found: int, total: int)

  // ---------------------------------------------------------------------------
  // Averages
  // ---------------------------------------------------------------------------

  function Sum(xs: seq<int>): int {
    if xs == [] then 0 else Sum(xs[..|xs| - 1]) + xs[|xs| - 1]
  }

  /** `sum(xs) / len(xs)`. */
  function Mean(xs: seq<int>): real
    requires xs != []
  {
    Sum(xs) as real / |xs| as real
  }

  /** `sum(xs) / len(xs) if xs else 0`. */
  function MeanOrZero(xs: seq<int>): real {
    if xs == [] then 0.0 else Mean(xs)
  }

  /** Multiplying both sides by a positive number keeps a strict comparison. */
  lemma ScaleLess(x: real, y: real, c: real)
    requires c > 0.0
    ensures x < y <==> x * c < y * c
  {
  }

  /** `x < (s / n) * k` is `x * n < s * k` for positive `n`. */
  lemma BelowScaledMean(x: int, s: int, n: int, k: real)
    requires n > 0
    ensures (x as real) < (s as real / n as real) * k <==> (x as real) * (n as real) < (s as real) * k
  {
    var a := s as real / n as real;
    assert a * (n as real) == s as real;
    ScaleLess(x as real, a * k, n as real);
    assert a * k * (n as real) == (s as real) * k;
  }

  /** `x < average * 0.5`, with the average 0 for no values: twice `x` times the count is below the sum. */
  lemma HalfMean(x: int, xs: seq<int>)
    ensures (x as real) < MeanOrZero(xs) * 0.5 <==> if xs == [] then x < 0 else 2 * x * |xs| < Sum(xs)
  {
    if xs != [] {
      BelowScaledMean(x, Sum(xs), |xs|, 0.5);
      assert (x as real) * (|xs| as real) * 2.0 == (2 * x * |xs|) as real;
    }
  }

  /** `x < average`: `x` times the count is below the sum. */
  lemma BelowMean(x: int, xs: seq<int>)
    requires xs != []
    ensures (x as real) < Mean(xs) <==> x * |xs| < Sum(xs)
  {
    BelowScaledMean(x, Sum(xs), |xs|, 1.0);
    assert (x as real) * (|xs| as real) == (x * |xs|) as real;
  }

  // ---------------------------------------------------------------------------
  // Figures of the records
  // ---------------------------------------------------------------------------

  /** The domain ranks of the competitors. */
  function Ranks(cs: seq<A.PyRecord>): (xs: seq<int>)
    ensures |xs| == |cs| && forall i :: 0 <= i < |cs| ==> xs[i] == cs[i].backlinks.rank
  {
    seq(|cs|, i requires 0 <= i < |cs| => cs[i].backlinks.rank)
  }

  /** The referring-domain counts of the competitors. */
  function Referring(cs: seq<A.PyRecord>): (xs: seq<int>)
    ensures |xs| == |cs| && forall i :: 0 <= i < |cs| ==> xs[i] == cs[i].backlinks.referringDomains
  {
    seq(|cs|, i requires 0 <= i < |cs| => cs[i].backlinks.referringDomains)
  }

  /** The non-zero review counts of the competitors, in order (`if c.get('review_count')`). */
  function ReviewCounts(cs: seq<A.PyRecord>): (xs: seq<int>)
    ensures |xs| <= |cs|
    ensures forall i :: 0 <= i < |xs| ==> xs[i] != 0
    ensures xs == [] <==> forall i :: 0 <= i < |cs| ==> cs[i].reviewCount == 0
  {
    if cs == [] then []
    else
      var rest := ReviewCounts(cs[..|cs| - 1]);
      var c := cs[|cs| - 1];
      assert forall i :: 0 <= i < |cs| - 1 ==> cs[..|cs| - 1][i] == cs[i];
      if c.reviewCount != 0 then rest + [c.reviewCount] else rest
  }

  /** The present, non-zero ratings of the competitors, in order (`if c.get('rating')`). */
  function Ratings(cs: seq<A.PyRecord>): (xs: seq<int>)
    ensures |xs| <= |cs|
    ensures forall i :: 0 <= i < |xs| ==> xs[i] != 0
    ensures xs == [] <==> forall i :: 0 <= i < |cs| ==> !A.Ranked(cs[i].rating)
  {
    if cs == [] then []
    else
      var rest := Ratings(cs[..|cs| - 1]);
      var c := cs[|cs| - 1];
      assert forall i :: 0 <= i < |cs| - 1 ==> cs[..|cs| - 1][i] == cs[i];
      if A.Ranked(c.rating) then rest + [c.rating.value] else rest
  }

  /** The practice's keywords whose position is known, non-zero and at most 10. */
  function TopTenKeys(rankings: A.RankMap): (keys: set<string>)
    ensures keys <= rankings.Keys
    ensures keys == {} <==> forall k :: k in rankings ==> !(A.Ranked(rankings[k]) && rankings[k].value <= 10)
  {
    var keys := set k | k in rankings && A.Ranked(rankings[k]) && rankings[k].value <= 10;
    assert forall k :: k in rankings && A.Ranked(rankings[k]) && rankings[k].value <= 10 ==> k in keys;
    keys
  }

  predicate Missing(l: P.Listing, importance: P.Importance) {
    !l.found && l.importance == importance
  }

  /** Some directory of the importance does not list the practice. */
  predicate MissesAny(listings: seq<P.Listing>, importance: P.Importance) {
    exists i :: 0 <= i < |listings| && Missing(listings[i], importance)
  }

  /** The names of the directories of one importance that do not list the practice, in order. */
  function MissingNames(listings: seq<P.Listing>, importance: P.Importance): (names: seq<string>)
    ensures names == [] <==> !MissesAny(listings, importance)
  {
    if listings == [] then []
    else
      var rest := MissingNames(listings[..|listings| - 1], importance);
      var l := listings[|listings| - 1];
      assert forall i :: 0 <= i < |listings| - 1 ==> listings[..|listings| - 1][i] == listings[i];
      if Missing(l, importance) then rest + [l.directory] else rest
  }

  /** How many directories list the practice. */
  function FoundCount(listings: seq<P.Listing>): (n: nat)
    ensures n <= |listings|
  {
    if listings == [] then 0
    else FoundCount(listings[..|listings| - 1]) + if listings[|listings| - 1].found then 1 else 0
  }

  /** `sep.join(parts)`. */
  function JoinWith(parts: seq<string>, sep: string): string {
    if |parts| == 0 then ""
    else if |parts| == 1 then parts[0]
    else parts[0] + sep + JoinWith(parts[1..], sep)
  }

  /** `f"{x:.1f}"` for a rating: the nearest tenth, ties upward, with its sign. */
  function Fixed1(x: real): string {
    var n := (if x < 0.0 then -x else x) * 10.0 + 0.5;
    var tenths := n.Floor;
    (if x < 0.0 then "-" else "") + NatToString(tenths / 10) + "." + [DigitChar(tenths % 10)]
  }

  /** A rating of `r` tenths printed as a float: whole stars, a point, the tenths digit. */
  function StarsText(r: int): (s: string)
    ensures r >= 0 ==> s == NatToString(r / 10) + "." + [DigitChar(r % 10)]
  {
    if r < 0 then "-" + NatToString(-r / 10) + "." + [DigitChar(-r % 10)]
    else NatToString(r / 10) + "." + [DigitChar(r % 10)]
  }

  // ---------------------------------------------------------------------------
  // The recommendations
  // ---------------------------------------------------------------------------

  const BuildAuthorityTitle: string := "Build Domain Authority"
  const TechnicalTitle: string := "Improve Technical SEO"
  const NoTopTenTitle: string := "No Keywords in Top 10"
  const KeywordRankingsTitle: string := "Improve Keyword Rankings"
  const ReferringTitle: string := "Increase Referring Domains"
  const NoReviewsTitle: string := "No Google Reviews Found"
  const IncreaseReviewsTitle: string := "Increase Google Reviews"
  const MoreReviewsTitle: string := "Build More Reviews"
  const ImproveRatingTitle: string := "Improve Google Rating"
  const BoostRatingTitle: string := "Boost Your Rating"
  const MissingCriticalTitle: string := "Missing Critical Directory Listings"
  const MissingKeyTitle: string := "Missing Key Directory Listings"
  const LowPresenceTitle: string := "Low Directory Presence"

  // The fixed parts of the recommendation texts.
  const AuthorityText1: string := "Your domain rank ("
  const AuthorityText2: string := ") is below the competitor average ("
  const AuthorityText3: string := "). Focus on acquiring quality backlinks from dental directories and local business listings."
  const TechnicalText1: string := "Your on-page SEO score is "
  const TechnicalText2: string := "/100. Address technical issues like page speed, meta tags, and mobile optimization."
  const NoTopTenText: string := "You have no dental keywords ranking in the top 10 search results. Focus on optimizing your homepage and service pages for key dental terms."
  const KeywordRankingsText1: string := "You have only "
  const KeywordRankingsText2: string := " keywords in the top 10. Create dedicated landing pages for more dental services."
  const ReferringText1: string := "You have "
  const ReferringText2: string := " referring domains vs competitor average of "
  const ReferringText3: string := ". Pursue link building through local partnerships."
  const NoReviewsText1: string := "We couldn't find Google reviews for your practice. Your competitors average "
  const NoReviewsText2: string := " reviews. Claim your Google Business Profile and start asking satisfied patients for reviews."
  const IncreaseReviewsText1: string := "You have "
  const IncreaseReviewsText2: string := " Google reviews vs competitor average of "
  const IncreaseReviewsText3: string := ". Reviews are a major local ranking factor. Implement a systematic review request process for satisfied patients."
  const MoreReviewsText1: string := "You have "
  const MoreReviewsText2: string := " reviews, below the competitor average of "
  const MoreReviewsText3: string := ". The top competitor has "
  const MoreReviewsText4: string := " reviews. Continue encouraging happy patients to leave reviews."
  const ImproveRatingText1: string := "Your "
  const ImproveRatingText2: string := "-star rating is below the 4.0 threshold that patients look for. Focus on patient experience and address any negative reviews professionally."
  const BoostRatingText1: string := "Your "
  const BoostRatingText2: string := "-star rating is below the competitor average of "
  const BoostRatingText3: string := " stars. Encourage your happiest patients to share their experiences online."
  const MissingCriticalText1: string := "Your practice is not listed on these important directories: "
  const MissingCriticalText2: string := ". These are high-traffic sites where patients search for dentists. Claim your listings immediately."
  const MissingKeyText1: string := "Consider adding your practice to: "
  const MissingKeyText2: string := ". These directories help improve your local SEO and online visibility."
  const LowPresenceText1: string := "You're only listed on "
  const LowPresenceText2: string := " of "
  const LowPresenceText3: string := " key directories. Building more citations helps Google verify your business information and improves local rankings."

  /** The competitors' average rating in stars (`sum(ratings) / len(ratings)`). */
  function StarsMean(competitors: seq<A.PyRecord>): real
    requires Ratings(competitors) != []
  {
    Mean(Ratings(competitors)) / 10.0
  }

  /** One backlink check: the practice's figure, below half the competitors' average, and that average as printed. */
  datatype BacklinkMeasure = BacklinkMeasure(low: bool, figure: int, average: int)

  /** The review checks: which of the three fires, and the figures the texts print. */
  datatype ReviewMeasure = ReviewMeasure(none: bool, few: bool, below: bool, reviews: int, average: int, most: int)

  /** The rating checks: which of the two fires, and the figures the texts print. */
  datatype RatingMeasure = RatingMeasure(low: bool, below: bool, rating: int, average: real)

  /** The directory checks: the missing names of each importance, and the presence figures. */
  datatype DirectoryMeasure = DirectoryMeasure(missingCritical: seq<string>, missingKey: seq<string>, low: bool, found: nat, total: nat)

  /** What the checks measure of the practice against the competitors. */
  datatype Measures = Measures(
    authority: BacklinkMeasure, lowTechnical: bool, score: real, topTen: nat,
    referring: BacklinkMeasure, reviews: ReviewMeasure, rating: RatingMeasure, directories: DirectoryMeasure)

  /** `x < average * 0.5`, with the average 0 when there are no competitors. */
  function BacklinkCheck(x: int, xs: seq<int>): (b: BacklinkMeasure)
    ensures b.low <==> (x as real) < MeanOrZero(xs) * 0.5
    ensures b.figure == x
  {
    HalfMean(x, xs);
    BacklinkMeasure(if xs == [] then x < 0 else 2 * x * |xs| < Sum(xs), x, TruncReal(MeanOrZero(xs)))
  }

  /** The review checks over the competitors' non-zero review counts `xs`; none fires when `xs` is empty. */
  function ReviewCheck(p: int, xs: seq<int>): (r: ReviewMeasure)
    ensures r.none <==> xs != [] && p == 0
    ensures r.few <==> (xs != [] && p != 0 && (p as real) < Mean(xs) * 0.5)
    ensures r.below <==> (xs != [] && p != 0 && !((p as real) < Mean(xs) * 0.5) && (p as real) < Mean(xs))
    ensures r.reviews == p
  {
    ReviewsBelowMean(p, xs);
    ReviewMeasure(
      xs != [] && p == 0,
      xs != [] && p != 0 && 2 * p * |xs| < Sum(xs),
      xs != [] && p != 0 && !(2 * p * |xs| < Sum(xs)) && p * |xs| < Sum(xs),
      p, TruncReal(MeanOrZero(xs)), if xs == [] then 0 else A.MaxOf(xs))
  }

  /** The rating checks: they run only when the practice and some competitor have a non-zero rating. */
  function RatingCheck(rating: Option<int>, competitors: seq<A.PyRecord>): (r: RatingMeasure)
    ensures r.low <==> (A.Ranked(rating) && Ratings(competitors) != [] && (rating.value as real) / 10.0 < 4.0)
    ensures r.below <==> (A.Ranked(rating) && Ratings(competitors) != []
      && !((rating.value as real) / 10.0 < 4.0) && (rating.value as real) / 10.0 < StarsMean(competitors) - 0.3)
  {
    var xs := Ratings(competitors);
    var x := if rating.Some? then rating.value else 0;
    var rated := A.Ranked(rating) && xs != [];
    RatingBelowMean(x, competitors);
    RatingMeasure(rated && x < 40, rated && x >= 40 && x * |xs| < Sum(xs) - 3 * |xs|,
      x, if xs == [] then 0.0 else StarsMean(competitors))
  }

  /** The directory checks; none fires without listings. */
  function DirectoryCheck(listings: seq<P.Listing>): (d: DirectoryMeasure)
    ensures d.missingCritical != [] <==> MissesAny(listings, P.CriticalDirectory)
    ensures d.missingKey != [] <==> MissesAny(listings, P.HighDirectory)
    ensures d.low <==> listings != [] && (FoundCount(listings) as real) < (|listings| as real) * 0.5
  {
    DirectoryMeasure(
      if listings == [] then [] else MissingNames(listings, P.CriticalDirectory),
      if listings == [] then [] else MissingNames(listings, P.HighDirectory),
      listings != [] && 2 * FoundCount(listings) < |listings|,
      FoundCount(listings), |listings|)
  }

  /** The measurements `generate_recommendations` takes before deciding. */
  function Measure(practice: A.PyRecord, competitors: seq<A.PyRecord>, rankings: A.RankMap, listings: seq<P.Listing>): Measures {
    Measures(
      BacklinkCheck(practice.backlinks.rank, Ranks(competitors)),
      practice.onPage.score < 70.0, practice.onPage.score,
      |TopTenKeys(rankings)|,
      BacklinkCheck(practice.backlinks.referringDomains, Referring(competitors)),
      ReviewCheck(practice.reviewCount, ReviewCounts(competitors)),
      RatingCheck(practice.rating, competitors),
      DirectoryCheck(listings))
  }

  /** The two review comparisons on integers, when some competitor has reviews. */
  lemma ReviewsBelowMean(p: int, xs: seq<int>)
    ensures xs != [] ==> ((p as real) < Mean(xs) * 0.5 <==> 2 * p * |xs| < Sum(xs))
    ensures xs != [] ==> ((p as real) < Mean(xs) <==> p * |xs| < Sum(xs))
  {
    if xs != [] {
      HalfMean(p, xs);
      BelowMean(p, xs);
    }
  }

  /** `x / 10 < average / 10 - 0.3` on tenths: `x` times the count is below the sum less three tenths per rating. */
  lemma RatingBelowMean(r: int, competitors: seq<A.PyRecord>)
    ensures Ratings(competitors) != [] ==>
      ((r as real) / 10.0 < StarsMean(competitors) - 0.3 <==> r * |Ratings(competitors)| < Sum(Ratings(competitors)) - 3 * |Ratings(competitors)|)
  {
    var xs := Ratings(competitors);
    if xs != [] {
      var k := |xs|;
      assert (r as real) / 10.0 < StarsMean(competitors) - 0.3 <==> ((r + 3) as real) < Mean(xs);
      BelowMean(r + 3, xs);
      assert (r + 3) * k == r * k + 3 * k;
    }
  }

  /** `int(x)`, Python's truncation toward zero. */
  function TruncReal(x: real): int {
    A.TruncReal(x)
  }

  /** One recommendation when `condition` holds, none otherwise. */
  function When(condition: bool, r: Recommendation): (rs: seq<Recommendation>)
    ensures rs == if condition then [r] else []
  {
    if condition then [r] else []
  }

  /** The text of a recommendation, as the f-strings of `generate_recommendations` print it. */
  function Description(d: Detail): string {
    match d
    case AuthorityDetail(rank, average) =>
      AuthorityText1 + IntToString(rank) + AuthorityText2 + IntToString(average) + AuthorityText3
    case TechnicalDetail(score) => TechnicalText1 + IntToString(score) + TechnicalText2
    case NoTopTenDetail => NoTopTenText
    case KeywordRankingsDetail(topTen) => KeywordRankingsText1 + IntToString(topTen) + KeywordRankingsText2
    case ReferringDetail(referring, average) =>
      ReferringText1 + IntToString(referring) + ReferringText2 + IntToString(average) + ReferringText3
    case NoReviewsDetail(average) => NoReviewsText1 + IntToString(average) + NoReviewsText2
    case IncreaseReviewsDetail(reviews, average) =>
      IncreaseReviewsText1 + IntToString(reviews) + IncreaseReviewsText2 + IntToString(average) + IncreaseReviewsText3
    case MoreReviewsDetail(reviews, average, most) =>
      MoreReviewsText1 + IntToString(reviews) + MoreReviewsText2 + IntToString(average)
      + MoreReviewsText3 + IntToString(most) + MoreReviewsText4
    case ImproveRatingDetail(rating) => ImproveRatingText1 + StarsText(rating) + ImproveRatingText2
    case BoostRatingDetail(rating, averageStars) =>
      BoostRatingText1 + StarsText(rating) + BoostRatingText2 + Fixed1(averageStars) + BoostRatingText3
    case MissingCriticalDetail(names) => MissingCriticalText1 + JoinWith(names, ", ") + MissingCriticalText2
    case MissingKeyDetail(names) => MissingKeyText1 + JoinWith(names, ", ") + MissingKeyText2
    case LowPresenceDetail(found, total) =>
      LowPresenceText1 + IntToString(found) + LowPresenceText2 + IntToString(total) + LowPresenceText3
  }

  function AuthorityAdvice(b: BacklinkMeasure): Recommendation {
    Recommendation(High, Backlinks, BuildAuthorityTitle, AuthorityDetail(b.figure, b.average))
  }

  function TechnicalAdvice(score: real): Recommendation {
    Recommendation(Critical, Technical, TechnicalTitle, TechnicalDetail(TruncReal(score)))
  }

  /** No keyword in the top 10 is critical; one or two is high. */
  function KeywordAdvice(topTen: nat): seq<Recommendation> {
    if topTen == 0 then [Recommendation(Critical, Keywords, NoTopTenTitle, NoTopTenDetail)]
    else When(topTen < 3, Recommendation(High, Keywords, KeywordRankingsTitle, KeywordRankingsDetail(topTen)))
  }

  function ReferringAdvice(b: BacklinkMeasure): Recommendation {
    Recommendation(Medium, Backlinks, ReferringTitle, ReferringDetail(b.figure, b.average))
  }

  /** The review checks: at most one of the three, the most severe that applies. */
  function ReviewAdvice(r: ReviewMeasure): seq<Recommendation> {
    if r.none then
      [Recommendation(Critical, Reviews, NoReviewsTitle, NoReviewsDetail(r.average))]
    else if r.few then
      [Recommendation(High, Reviews, IncreaseReviewsTitle, IncreaseReviewsDetail(r.reviews, r.average))]
    else if r.below then
      [Recommendation(Medium, Reviews, MoreReviewsTitle, MoreReviewsDetail(r.reviews, r.average, r.most))]
    else []
  }

  /** The rating checks: at most one of the two. */
  function RatingAdvice(r: RatingMeasure): seq<Recommendation> {
    if r.low then
      [Recommendation(Critical, Reviews, ImproveRatingTitle, ImproveRatingDetail(r.rating))]
    else if r.below then
      [Recommendation(High, Reviews, BoostRatingTitle, BoostRatingDetail(r.rating, r.average))]
    else []
  }

  function MissingCriticalAdvice(d: DirectoryMeasure): Recommendation {
    Recommendation(Critical, Citations, MissingCriticalTitle, MissingCriticalDetail(d.missingCritical))
  }

  function MissingKeyAdvice(d: DirectoryMeasure): Recommendation {
    Recommendation(High, Citations, MissingKeyTitle, MissingKeyDetail(d.missingKey))
  }

  function LowPresenceAdvice(d: DirectoryMeasure): Recommendation {
    Recommendation(High, Citations, LowPresenceTitle, LowPresenceDetail(d.found, d.total))
  }

  /** The directory checks, each on its own. */
  function DirectoryAdvice(d: DirectoryMeasure): seq<Recommendation> {
    When(d.missingCritical != [], MissingCriticalAdvice(d))
    + When(d.missingKey != [], MissingKeyAdvice(d))
    + When(d.low, LowPresenceAdvice(d))
  }

  /** The site checks: authority, technical SEO, keywords, referring domains. */
  function SiteAdvice(m: Measures): seq<Recommendation> {
    When(m.authority.low, AuthorityAdvice(m.authority))
    + When(m.lowTechnical, TechnicalAdvice(m.score))
    + KeywordAdvice(m.topTen)
    + When(m.referring.low, ReferringAdvice(m.referring))
  }

  /** The reputation checks: reviews, rating, directories. */
  function ReputationAdvice(m: Measures): seq<Recommendation> {
    ReviewAdvice(m.reviews) + RatingAdvice(m.rating) + DirectoryAdvice(m.directories)
  }

  /** The recommendations of the checks that fire, in the order the checks run. */
  function Rules(m: Measures): seq<Recommendation> {
    SiteAdvice(m) + ReputationAdvice(m)
  }

  /** `generate_recommendations`: the recommendations in the order the checks run. */
  function GenerateRecommendations(practice: A.PyRecord, competitors: seq<A.PyRecord>, rankings: A.RankMap, listings: seq<P.Listing>): seq<Recommendation> {
    Rules(Measure(practice, competitors, rankings, listings))
  }

  // ---------------------------------------------------------------------------
  // What the recommendations say
  // ---------------------------------------------------------------------------

  /** The titles of a list of recommendations, in order. */
  function Titles(recs: seq<Recommendation>): (ts: seq<string>)
    ensures |ts| == |recs| && forall i :: 0 <= i < |recs| ==> ts[i] == recs[i].title
  {
    seq(|recs|, i requires 0 <= i < |recs| => recs[i].title)
  }

  /** Some recommendation carries `title`. */
  predicate Advises(recs: seq<Recommendation>, title: string) {
    title in Titles(recs)
  }

  lemma TitlesConcat(a: seq<Recommendation>, b: seq<Recommendation>)
    ensures Titles(a + b) == Titles(a) + Titles(b)
  {
  }

  lemma WhenTitles(condition: bool, r: Recommendation)
    ensures Titles(When(condition, r)) == if condition then [r.title] else []
  {
  }

  /** The thirteen recommendations by kind; each kind has a title of its own. */
  datatype Advice =
    | BuildAuthority | ImproveTechnical | NoTopTen | ImproveKeywords | IncreaseReferring
    | NoReviews | IncreaseReviews | MoreReviews | ImproveRating | BoostRating
    | MissingCritical | MissingKey | LowPresence

  function TitleOf(a: Advice): string {
    match a
    case BuildAuthority => BuildAuthorityTitle
    case ImproveTechnical => TechnicalTitle
    case NoTopTen => NoTopTenTitle
    case ImproveKeywords => KeywordRankingsTitle
    case IncreaseReferring => ReferringTitle
    case NoReviews => NoReviewsTitle
    case IncreaseReviews => IncreaseReviewsTitle
    case MoreReviews => MoreReviewsTitle
    case ImproveRating => ImproveRatingTitle
    case BoostRating => BoostRatingTitle
    case MissingCritical => MissingCriticalTitle
    case MissingKey => MissingKeyTitle
    case LowPresence => LowPresenceTitle
  }

  /** The thirteen titles, and the facts that tell those of equal length apart. */
  lemma TitleShapes()
    ensures |BoostRatingTitle| == 17 && |MoreReviewsTitle| == 18
    ensures |TechnicalTitle| == 21 && |NoTopTenTitle| == 21 && |ImproveRatingTitle| == 21
    ensures |BuildAuthorityTitle| == 22 && |LowPresenceTitle| == 22
    ensures |NoReviewsTitle| == 23 && |IncreaseReviewsTitle| == 23
    ensures |KeywordRankingsTitle| == 24 && |ReferringTitle| == 26
    ensures |MissingKeyTitle| == 30 && |MissingCriticalTitle| == 35
    ensures TechnicalTitle != NoTopTenTitle && TechnicalTitle != ImproveRatingTitle && NoTopTenTitle != ImproveRatingTitle
    ensures BuildAuthorityTitle != LowPresenceTitle && NoReviewsTitle != IncreaseReviewsTitle
  {
    assert TechnicalTitle[0] != NoTopTenTitle[0] && ImproveRatingTitle[0] != NoTopTenTitle[0];
    assert TechnicalTitle[8] != ImproveRatingTitle[8];
    assert BuildAuthorityTitle[0] != LowPresenceTitle[0] && NoReviewsTitle[0] != IncreaseReviewsTitle[0];
  }

  /** No two kinds share a title. */
  lemma TitlesDistinct(a: Advice, b: Advice)
    ensures TitleOf(a) == TitleOf(b) <==> a == b
  {
    TitleShapes();
  }

  /** The titles of a list of kinds, in order. */
  function TitleList(kinds: seq<Advice>): (ts: seq<string>)
    ensures |ts| == |kinds| && forall i :: 0 <= i < |kinds| ==> ts[i] == TitleOf(kinds[i])
  {
    seq(|kinds|, i requires 0 <= i < |kinds| => TitleOf(kinds[i]))
  }

  /** A kind's title is among the titles of a list exactly when the kind is in the list. */
  lemma TitleIn(kinds: seq<Advice>, a: Advice)
    ensures TitleOf(a) in TitleList(kinds) <==> a in kinds
  {
    var ts := TitleList(kinds);
    if TitleOf(a) in ts {
      var i :| 0 <= i < |ts| && ts[i] == TitleOf(a);
      TitlesDistinct(kinds[i], a);
    }
  }

  lemma TitleListConcat(a: seq<Advice>, b: seq<Advice>)
    ensures TitleList(a + b) == TitleList(a) + TitleList(b)
  {
    var whole := TitleList(a + b);
    var parts := TitleList(a) + TitleList(b);
    forall i | 0 <= i < |whole| ensures whole[i] == parts[i] {
      if i < |a| {
        assert (a + b)[i] == a[i];
      } else {
        assert (a + b)[i] == b[i - |a|];
      }
    }
  }

  function KeywordKinds(topTen: nat): seq<Advice> {
    if topTen == 0 then [NoTopTen] else if topTen < 3 then [ImproveKeywords] else []
  }

  function ReviewKinds(r: ReviewMeasure): seq<Advice> {
    if r.none then [NoReviews] else if r.few then [IncreaseReviews] else if r.below then [MoreReviews] else []
  }

  function RatingKinds(r: RatingMeasure): seq<Advice> {
    if r.low then [ImproveRating] else if r.below then [BoostRating] else []
  }

  function DirectoryKinds(d: DirectoryMeasure): seq<Advice> {
    (if d.missingCritical != [] then [MissingCritical] else [])
    + (if d.missingKey != [] then [MissingKey] else [])
    + (if d.low then [LowPresence] else [])
  }

  function SiteKinds(m: Measures): seq<Advice> {
    (if m.authority.low then [BuildAuthority] else [])
    + (if m.lowTechnical then [ImproveTechnical] else [])
    + KeywordKinds(m.topTen)
    + (if m.referring.low then [IncreaseReferring] else [])
  }

  function ReputationKinds(m: Measures): seq<Advice> {
    ReviewKinds(m.reviews) + RatingKinds(m.rating) + DirectoryKinds(m.directories)
  }

  /** The kinds of the checks that fire, in check order. */
  function FiredKinds(m: Measures): seq<Advice> {
    SiteKinds(m) + ReputationKinds(m)
  }

  /** The titles of the checks that fire, in check order. */
  function FiredTitles(m: Measures): seq<string> {
    TitleList(FiredKinds(m))
  }

  lemma WhenKinds(condition: bool, r: Recommendation, a: Advice)
    requires r.title == TitleOf(a)
    ensures Titles(When(condition, r)) == TitleList(if condition then [a] else [])
  {
  }

  lemma DirectoryAdviceTitles(d: DirectoryMeasure)
    ensures Titles(DirectoryAdvice(d)) == TitleList(DirectoryKinds(d))
  {
    var c := When(d.missingCritical != [], MissingCriticalAdvice(d));
    var h := When(d.missingKey != [], MissingKeyAdvice(d));
    var l := When(d.low, LowPresenceAdvice(d));
    var kc: seq<Advice> := if d.missingCritical != [] then [MissingCritical] else [];
    var kh: seq<Advice> := if d.missingKey != [] then [MissingKey] else [];
    var kl: seq<Advice> := if d.low then [LowPresence] else [];
    WhenKinds(d.missingCritical != [], MissingCriticalAdvice(d), MissingCritical);
    WhenKinds(d.missingKey != [], MissingKeyAdvice(d), MissingKey);
    WhenKinds(d.low, LowPresenceAdvice(d), LowPresence);
    TitlesConcat(c, h);
    TitlesConcat(c + h, l);
    TitleListConcat(kc, kh);
    TitleListConcat(kc + kh, kl);
  }

  lemma SiteTitles(m: Measures)
    ensures Titles(SiteAdvice(m)) == TitleList(SiteKinds(m))
  {
    var a := When(m.authority.low, AuthorityAdvice(m.authority));
    var t := When(m.lowTechnical, TechnicalAdvice(m.score));
    var k := KeywordAdvice(m.topTen);
    var f := When(m.referring.low, ReferringAdvice(m.referring));
    var ka: seq<Advice> := if m.authority.low then [BuildAuthority] else [];
    var kt: seq<Advice> := if m.lowTechnical then [ImproveTechnical] else [];
    var kk := KeywordKinds(m.topTen);
    var kf: seq<Advice> := if m.referring.low then [IncreaseReferring] else [];
    WhenKinds(m.authority.low, AuthorityAdvice(m.authority), BuildAuthority);
    WhenKinds(m.lowTechnical, TechnicalAdvice(m.score), ImproveTechnical);
    assert Titles(k) == TitleList(kk);
    WhenKinds(m.referring.low, ReferringAdvice(m.referring), IncreaseReferring);
    TitlesConcat(a, t);
    TitlesConcat(a + t, k);
    TitlesConcat(a + t + k, f);
    TitleListConcat(ka, kt);
    TitleListConcat(ka + kt, kk);
    TitleListConcat(ka + kt + kk, kf);
  }

  lemma ReputationTitles(m: Measures)
    ensures Titles(ReputationAdvice(m)) == TitleList(ReputationKinds(m))
  {
    var v := ReviewAdvice(m.reviews);
    var g := RatingAdvice(m.rating);
    var d := DirectoryAdvice(m.directories);
    var kv := ReviewKinds(m.reviews);
    var kg := RatingKinds(m.rating);
    var kd := DirectoryKinds(m.directories);
    assert Titles(v) == TitleList(kv);
    assert Titles(g) == TitleList(kg);
    DirectoryAdviceTitles(m.directories);
    TitlesConcat(v, g);
    TitlesConcat(v + g, d);
    TitleListConcat(kv, kg);
    TitleListConcat(kv + kg, kd);
  }

  /** The recommendations carry the titles of the checks that fire, in order. */
  lemma RulesTitles(m: Measures)
    ensures Titles(Rules(m)) == FiredTitles(m)
  {
    SiteTitles(m);
    ReputationTitles(m);
    TitlesConcat(SiteAdvice(m), ReputationAdvice(m));
    TitleListConcat(SiteKinds(m), ReputationKinds(m));
  }

  /** A title is advised exactly when it is among the titles of the checks that fire. */
  lemma AdvisedFired(m: Measures, title: string)
    ensures Advises(Rules(m), title) <==> title in FiredTitles(m)
  {
    RulesTitles(m);
  }

  /** Recommendations titled after a list of kinds advise a kind's title exactly when the kind is listed. */
  lemma AdvisedListed(recs: seq<Recommendation>, kinds: seq<Advice>, a: Advice)
    requires Titles(recs) == TitleList(kinds)
    ensures Advises(recs, TitleOf(a)) <==> a in kinds
  {
    TitleIn(kinds, a);
  }

  /** A kind's title is advised exactly when the kind is among the fired kinds. */
  lemma AdvisedKind(m: Measures, a: Advice)
    ensures Advises(Rules(m), TitleOf(a)) <==> a in FiredKinds(m)
  {
    RulesTitles(m);
    AdvisedListed(Rules(m), FiredKinds(m), a);
  }

  // Each kind is among the fired kinds, and its title advised, exactly when its check fires (one lemma each keeps every proof small).

  lemma BuildAuthorityFires(m: Measures)
    ensures BuildAuthority in FiredKinds(m) <==> m.authority.low
  {
    assert BuildAuthority in FiredKinds(m) <==> BuildAuthority in SiteKinds(m) || BuildAuthority in ReputationKinds(m);
  }

  lemma AdvisedBuildAuthority(m: Measures)
    ensures Advises(Rules(m), BuildAuthorityTitle) <==> m.authority.low
  {
    assert TitleOf(BuildAuthority) == BuildAuthorityTitle;
    AdvisedKind(m, BuildAuthority);
    BuildAuthorityFires(m);
  }

  lemma ImproveTechnicalFires(m: Measures)
    ensures ImproveTechnical in FiredKinds(m) <==> m.lowTechnical
  {
    assert ImproveTechnical in FiredKinds(m) <==> ImproveTechnical in SiteKinds(m) || ImproveTechnical in ReputationKinds(m);
  }

  lemma AdvisedImproveTechnical(m: Measures)
    ensures Advises(Rules(m), TechnicalTitle) <==> m.lowTechnical
  {
    assert TitleOf(ImproveTechnical) == TechnicalTitle;
    AdvisedKind(m, ImproveTechnical);
    ImproveTechnicalFires(m);
  }

  lemma NoTopTenFires(m: Measures)
    ensures NoTopTen in FiredKinds(m) <==> m.topTen == 0
  {
    assert NoTopTen in FiredKinds(m) <==> NoTopTen in SiteKinds(m) || NoTopTen in ReputationKinds(m);
  }

  lemma AdvisedNoTopTen(m: Measures)
    ensures Advises(Rules(m), NoTopTenTitle) <==> m.topTen == 0
  {
    assert TitleOf(NoTopTen) == NoTopTenTitle;
    AdvisedKind(m, NoTopTen);
    NoTopTenFires(m);
  }

  lemma ImproveKeywordsFires(m: Measures)
    ensures ImproveKeywords in FiredKinds(m) <==> 0 < m.topTen < 3
  {
    assert ImproveKeywords in FiredKinds(m) <==> ImproveKeywords in SiteKinds(m) || ImproveKeywords in ReputationKinds(m);
  }

  lemma AdvisedImproveKeywords(m: Measures)
    ensures Advises(Rules(m), KeywordRankingsTitle) <==> 0 < m.topTen < 3
  {
    assert TitleOf(ImproveKeywords) == KeywordRankingsTitle;
    AdvisedKind(m, ImproveKeywords);
    ImproveKeywordsFires(m);
  }

  lemma IncreaseReferringFires(m: Measures)
    ensures IncreaseReferring in FiredKinds(m) <==> m.referring.low
  {
    assert IncreaseReferring in FiredKinds(m) <==> IncreaseReferring in SiteKinds(m) || IncreaseReferring in ReputationKinds(m);
  }

  lemma AdvisedIncreaseReferring(m: Measures)
    ensures Advises(Rules(m), ReferringTitle) <==> m.referring.low
  {
    assert TitleOf(IncreaseReferring) == ReferringTitle;
    AdvisedKind(m, IncreaseReferring);
    IncreaseReferringFires(m);
  }

  lemma NoReviewsFires(m: Measures)
    ensures NoReviews in FiredKinds(m) <==> m.reviews.none
  {
    assert NoReviews in FiredKinds(m) <==> NoReviews in SiteKinds(m) || NoReviews in ReputationKinds(m);
  }

  lemma AdvisedNoReviews(m: Measures)
    ensures Advises(Rules(m), NoReviewsTitle) <==> m.reviews.none
  {
    assert TitleOf(NoReviews) == NoReviewsTitle;
    AdvisedKind(m, NoReviews);
    NoReviewsFires(m);
  }

  lemma IncreaseReviewsFires(m: Measures)
    ensures IncreaseReviews in FiredKinds(m) <==> !m.reviews.none && m.reviews.few
  {
    assert IncreaseReviews in FiredKinds(m) <==> IncreaseReviews in SiteKinds(m) || IncreaseReviews in ReputationKinds(m);
  }

  lemma AdvisedIncreaseReviews(m: Measures)
    ensures Advises(Rules(m), IncreaseReviewsTitle) <==> !m.reviews.none && m.reviews.few
  {
    assert TitleOf(IncreaseReviews) == IncreaseReviewsTitle;
    AdvisedKind(m, IncreaseReviews);
    IncreaseReviewsFires(m);
  }

  lemma MoreReviewsFires(m: Measures)
    ensures MoreReviews in FiredKinds(m) <==> !m.reviews.none && !m.reviews.few && m.reviews.below
  {
    assert MoreReviews in FiredKinds(m) <==> MoreReviews in SiteKinds(m) || MoreReviews in ReputationKinds(m);
  }

  lemma AdvisedMoreReviews(m: Measures)
    ensures Advises(Rules(m), MoreReviewsTitle) <==> !m.reviews.none && !m.reviews.few && m.reviews.below
  {
    assert TitleOf(MoreReviews) == MoreReviewsTitle;
    AdvisedKind(m, MoreReviews);
    MoreReviewsFires(m);
  }

  lemma ImproveRatingFires(m: Measures)
    ensures ImproveRating in FiredKinds(m) <==> m.rating.low
  {
    assert ImproveRating in FiredKinds(m) <==> ImproveRating in SiteKinds(m) || ImproveRating in ReputationKinds(m);
  }

  lemma AdvisedImproveRating(m: Measures)
    ensures Advises(Rules(m), ImproveRatingTitle) <==> m.rating.low
  {
    assert TitleOf(ImproveRating) == ImproveRatingTitle;
    AdvisedKind(m, ImproveRating);
    ImproveRatingFires(m);
  }

  lemma BoostRatingFires(m: Measures)
    ensures BoostRating in FiredKinds(m) <==> !m.rating.low && m.rating.below
  {
    assert BoostRating in FiredKinds(m) <==> BoostRating in SiteKinds(m) || BoostRating in ReputationKinds(m);
  }

  lemma AdvisedBoostRating(m: Measures)
    ensures Advises(Rules(m), BoostRatingTitle) <==> !m.rating.low && m.rating.below
  {
    assert TitleOf(BoostRating) == BoostRatingTitle;
    AdvisedKind(m, BoostRating);
    BoostRatingFires(m);
  }

  lemma MissingCriticalFires(m: Measures)
    ensures MissingCritical in FiredKinds(m) <==> m.directories.missingCritical != []
  {
    assert MissingCritical in FiredKinds(m) <==> MissingCritical in SiteKinds(m) || MissingCritical in ReputationKinds(m);
  }

  lemma AdvisedMissingCritical(m: Measures)
    ensures Advises(Rules(m), MissingCriticalTitle) <==> m.directories.missingCritical != []
  {
    assert TitleOf(MissingCritical) == MissingCriticalTitle;
    AdvisedKind(m, MissingCritical);
    MissingCriticalFires(m);
  }

  lemma MissingKeyFires(m: Measures)
    ensures MissingKey in FiredKinds(m) <==> m.directories.missingKey != []
  {
    assert MissingKey in FiredKinds(m) <==> MissingKey in SiteKinds(m) || MissingKey in ReputationKinds(m);
  }

  lemma AdvisedMissingKey(m: Measures)
    ensures Advises(Rules(m), MissingKeyTitle) <==> m.directories.missingKey != []
  {
    assert TitleOf(MissingKey) == MissingKeyTitle;
    AdvisedKind(m, MissingKey);
    MissingKeyFires(m);
  }

  lemma LowPresenceFires(m: Measures)
    ensures LowPresence in FiredKinds(m) <==> m.directories.low
  {
    assert LowPresence in FiredKinds(m) <==> LowPresence in SiteKinds(m) || LowPresence in ReputationKinds(m);
  }

  lemma AdvisedLowPresence(m: Measures)
    ensures Advises(Rules(m), LowPresenceTitle) <==> m.directories.low
  {
    assert TitleOf(LowPresence) == LowPresenceTitle;
    AdvisedKind(m, LowPresence);
    LowPresenceFires(m);
  }

  /** Domain authority and referring domains: each advised exactly when the practice's figure is below half the competitors' average (0 without competitors). */
  lemma BacklinkRules(practice: A.PyRecord, competitors: seq<A.PyRecord>, rankings: A.RankMap, listings: seq<P.Listing>)
    ensures Advises(GenerateRecommendations(practice, competitors, rankings, listings), BuildAuthorityTitle) <==> (practice.backlinks.rank as real) < MeanOrZero(Ranks(competitors)) * 0.5
    ensures Advises(GenerateRecommendations(practice, competitors, rankings, listings), ReferringTitle) <==> (practice.backlinks.referringDomains as real) < MeanOrZero(Referring(competitors)) * 0.5
  {
    var m := Measure(practice, competitors, rankings, listings);
    assert Advises(GenerateRecommendations(practice, competitors, rankings, listings), BuildAuthorityTitle) <==> (practice.backlinks.rank as real) < MeanOrZero(Ranks(competitors)) * 0.5 by {
      AdvisedBuildAuthority(m);
    }
    assert Advises(GenerateRecommendations(practice, competitors, rankings, listings), ReferringTitle) <==> (practice.backlinks.referringDomains as real) < MeanOrZero(Referring(competitors)) * 0.5 by {
      AdvisedIncreaseReferring(m);
    }
  }

  /** Technical SEO below a score of 70; no keyword in the top 10 (critical) or only one or two (high). */
  lemma TechnicalKeywordRules(practice: A.PyRecord, competitors: seq<A.PyRecord>, rankings: A.RankMap, listings: seq<P.Listing>)
    ensures Advises(GenerateRecommendations(practice, competitors, rankings, listings), TechnicalTitle) <==> practice.onPage.score < 70.0
    ensures Advises(GenerateRecommendations(practice, competitors, rankings, listings), NoTopTenTitle) <==> (forall k :: k in rankings ==> !(A.Ranked(rankings[k]) && rankings[k].value <= 10))
    ensures Advises(GenerateRecommendations(practice, competitors, rankings, listings), KeywordRankingsTitle) <==> 0 < |TopTenKeys(rankings)| < 3
  {
    var m := Measure(practice, competitors, rankings, listings);
    assert Advises(GenerateRecommendations(practice, competitors, rankings, listings), TechnicalTitle) <==> practice.onPage.score < 70.0 by {
      AdvisedImproveTechnical(m);
    }
    assert Advises(GenerateRecommendations(practice, competitors, rankings, listings), NoTopTenTitle) <==> (forall k :: k in rankings ==> !(A.Ranked(rankings[k]) && rankings[k].value <= 10)) by {
      AdvisedNoTopTen(m);
    }
    assert Advises(GenerateRecommendations(practice, competitors, rankings, listings), KeywordRankingsTitle) <==> 0 < |TopTenKeys(rankings)| < 3 by {
      AdvisedImproveKeywords(m);
    }
  }

  /** The review checks run only when some competitor has reviews: none of the practice's is critical, fewer than half the average high, fewer than the average medium. */
  lemma ReviewRules(practice: A.PyRecord, competitors: seq<A.PyRecord>, rankings: A.RankMap, listings: seq<P.Listing>)
    ensures Advises(GenerateRecommendations(practice, competitors, rankings, listings), NoReviewsTitle) <==> (ReviewCounts(competitors) != [] && practice.reviewCount == 0)
    ensures Advises(GenerateRecommendations(practice, competitors, rankings, listings), IncreaseReviewsTitle) <==> (ReviewCounts(competitors) != [] && practice.reviewCount != 0
      && (practice.reviewCount as real) < Mean(ReviewCounts(competitors)) * 0.5)
    ensures Advises(GenerateRecommendations(practice, competitors, rankings, listings), MoreReviewsTitle) <==> (ReviewCounts(competitors) != [] && practice.reviewCount != 0
      && !((practice.reviewCount as real) < Mean(ReviewCounts(competitors)) * 0.5)
      && (practice.reviewCount as real) < Mean(ReviewCounts(competitors)))
  {
    var m := Measure(practice, competitors, rankings, listings);
    assert Advises(GenerateRecommendations(practice, competitors, rankings, listings), NoReviewsTitle) <==> (ReviewCounts(competitors) != [] && practice.reviewCount == 0) by {
      AdvisedNoReviews(m);
    }
    assert Advises(GenerateRecommendations(practice, competitors, rankings, listings), IncreaseReviewsTitle) <==> (ReviewCounts(competitors) != [] && practice.reviewCount != 0
      && (practice.reviewCount as real) < Mean(ReviewCounts(competitors)) * 0.5) by {
      AdvisedIncreaseReviews(m);
    }
    assert Advises(GenerateRecommendations(practice, competitors, rankings, listings), MoreReviewsTitle) <==> (ReviewCounts(competitors) != [] && practice.reviewCount != 0
      && !((practice.reviewCount as real) < Mean(ReviewCounts(competitors)) * 0.5)
      && (practice.reviewCount as real) < Mean(ReviewCounts(competitors))) by {
      AdvisedMoreReviews(m);
    }
  }

  /** The rating checks run only when the practice and some competitor are rated: below 4.0 stars is critical, more than 0.3 below the average high. */
  lemma RatingRules(practice: A.PyRecord, competitors: seq<A.PyRecord>, rankings: A.RankMap, listings: seq<P.Listing>)
    ensures Advises(GenerateRecommendations(practice, competitors, rankings, listings), ImproveRatingTitle) <==> (A.Ranked(practice.rating) && Ratings(competitors) != [] && (practice.rating.value as real) / 10.0 < 4.0)
    ensures Advises(GenerateRecommendations(practice, competitors, rankings, listings), BoostRatingTitle) <==> (A.Ranked(practice.rating) && Ratings(competitors) != [] && !((practice.rating.value as real) / 10.0 < 4.0)
      && (practice.rating.value as real) / 10.0 < StarsMean(competitors) - 0.3)
  {
    var m := Measure(practice, competitors, rankings, listings);
    assert Advises(GenerateRecommendations(practice, competitors, rankings, listings), ImproveRatingTitle) <==> (A.Ranked(practice.rating) && Ratings(competitors) != [] && (practice.rating.value as real) / 10.0 < 4.0) by {
      AdvisedImproveRating(m);
    }
    assert Advises(GenerateRecommendations(practice, competitors, rankings, listings), BoostRatingTitle) <==> (A.Ranked(practice.rating) && Ratings(competitors) != [] && !((practice.rating.value as real) / 10.0 < 4.0)
      && (practice.rating.value as real) / 10.0 < StarsMean(competitors) - 0.3) by {
      AdvisedBoostRating(m);
    }
  }

  /** A critical directory that does not list the practice gives the critical citations recommendation. */
  lemma MissingCriticalRule(practice: A.PyRecord, competitors: seq<A.PyRecord>, rankings: A.RankMap, listings: seq<P.Listing>)
    ensures Advises(GenerateRecommendations(practice, competitors, rankings, listings), MissingCriticalTitle) <==> MissesAny(listings, P.CriticalDirectory)
  {
    var m := Measure(practice, competitors, rankings, listings);
    AdvisedMissingCritical(m);
  }

  /** A high-importance directory that does not list the practice gives the high citations recommendation. */
  lemma MissingKeyRule(practice: A.PyRecord, competitors: seq<A.PyRecord>, rankings: A.RankMap, listings: seq<P.Listing>)
    ensures Advises(GenerateRecommendations(practice, competitors, rankings, listings), MissingKeyTitle) <==> MissesAny(listings, P.HighDirectory)
  {
    var m := Measure(practice, competitors, rankings, listings);
    AdvisedMissingKey(m);
  }

  /** Being listed on fewer than half of the directories checked gives the presence recommendation. */
  lemma LowPresenceRule(practice: A.PyRecord, competitors: seq<A.PyRecord>, rankings: A.RankMap, listings: seq<P.Listing>)
    ensures Advises(GenerateRecommendations(practice, competitors, rankings, listings), LowPresenceTitle) <==> (listings != [] && (FoundCount(listings) as real) < (|listings| as real) * 0.5)
  {
    var m := Measure(practice, competitors, rankings, listings);
    AdvisedLowPresence(m);
  }

  /** The recommendations come in the order the checks run; they are not sorted by priority. */
  lemma GeneratedInCheckOrder(practice: A.PyRecord, competitors: seq<A.PyRecord>, rankings: A.RankMap, listings: seq<P.Listing>)
    ensures Titles(GenerateRecommendations(practice, competitors, rankings, listings)) == FiredTitles(Measure(practice, competitors, rankings, listings))
  {
    RulesTitles(Measure(practice, competitors, rankings, listings));
  }

  /** Of the three review recommendations at most one is given, and of the two rating ones at most one. */
  lemma ReviewAdviceExclusive(practice: A.PyRecord, competitors: seq<A.PyRecord>, rankings: A.RankMap, listings: seq<P.Listing>)
    ensures var recs := GenerateRecommendations(practice, competitors, rankings, listings);
      && !(Advises(recs, NoReviewsTitle) && Advises(recs, IncreaseReviewsTitle))
      && !(Advises(recs, NoReviewsTitle) && Advises(recs, MoreReviewsTitle))
      && !(Advises(recs, IncreaseReviewsTitle) && Advises(recs, MoreReviewsTitle))
      && !(Advises(recs, ImproveRatingTitle) && Advises(recs, BoostRatingTitle))
  {
    ReviewRules(practice, competitors, rankings, listings);
    RatingRules(practice, competitors, rankings, listings);
  }

  /**
   * Without competitors the averages are 0: a domain rank or referring-domain
   * count that is not negative gives no backlink advice, and no review or
   * rating advice is given.
   */
  lemma NoCompetitorsAdvice(practice: A.PyRecord, rankings: A.RankMap, listings: seq<P.Listing>)
    ensures var recs := GenerateRecommendations(practice, [], rankings, listings);
      && (Advises(recs, BuildAuthorityTitle) <==> practice.backlinks.rank < 0)
      && (Advises(recs, ReferringTitle) <==> practice.backlinks.referringDomains < 0)
      && !Advises(recs, NoReviewsTitle) && !Advises(recs, IncreaseReviewsTitle) && !Advises(recs, MoreReviewsTitle)
      && !Advises(recs, ImproveRatingTitle) && !Advises(recs, BoostRatingTitle)
  {
    BacklinkRules(practice, [], rankings, listings);
    ReviewRules(practice, [], rankings, listings);
    RatingRules(practice, [], rankings, listings);
  }
}

/**
 * The jobs and routes of the Python backend (backend/src/app.py):
 * `run_analysis`, which fills in a job record step by step, the in-memory
 * job store, and the `/start`, `/status`, `/report` and
 * `/discover-competitors` routes. The web services are parameters; a request
 * that raises is a reply of its own.
 */
module FlaskJobs {
  import opened Wrappers
  import opened Text
  import GooglePlaces
  import P = FlaskProviders
  import A = FlaskAnalysis
  import R = FlaskRecommendations

  // ---------------------------------------------------------------------------
  // The analysis (`run_analysis`)
  // ---------------------------------------------------------------------------

  /** The web services the analysis calls, each as the function from its request to its reply. */
  datatype Providers = Providers(
    textSearch: string -> P.TextSearchReply,
    geocoder: string -> GooglePlaces.GeocodeReply,
    nearby: (real, real, string) -> P.PlacesPage,
    website: string -> Option<string>,
    backlinks: string -> P.TaskReply<P.BacklinksFigures>,
    onPage: seq<string> -> P.OnPageReply,
    serp: string -> P.TaskReply<seq<P.SerpItem>>)

  /** The arguments `start_analysis` hands to `run_analysis`. */
  datatype AnalysisRequest = AnalysisRequest(
    practiceName: string,
    address: string,
    websiteUrl: string,
    competitorMode: string,
    practiceType: string,
    manualCompetitors: seq<string>)

  /** The report stored in a completed job. */
  datatype PyReport = PyReport(
    id: string,
    practiceName: string,
    practiceWebsite: string,
    scores: A.Scores,
    practiceData: A.PyRecord,
    competitors: seq<A.PyRecord>,
    recommendations: seq<R.Recommendation>,
    keywordData: seq<A.KeywordRow>,
    keywordSummary: A.KeywordSummary,
    directoryListings: seq<P.Listing>)

  /** A progress update: the percentage and the message the job shows. */
  datatype Step = Step(progress: int, message: string)

  /** The progress updates of `run_analysis`, in order. */
  const Steps: seq<Step> := [
    Step(10, "Finding competitors..."),
    Step(20, "Analyzing domain authority..."),
    Step(40, "Analyzing technical SEO..."),
    Step(50, "Checking keyword rankings..."),
    Step(75, "Checking directory listings..."),
    Step(90, "Generating report...")
  ]

  /** How an analysis ends, and how many progress updates it made before. */
  datatype Outcome = Outcome(result: Result<PyReport>, reached: nat)

  /** The competitors are the manual list only when the mode is `manual` and the list is not empty. */
  predicate ManualMode(request: AnalysisRequest) {
    request.competitorMode == "manual" && request.manualCompetitors != []
  }

  /** The competitors: the manual list, or the geocoded address's nearby search for the practice type. */
  function Competitors(request: AnalysisRequest, providers: Providers): (r: Result<seq<P.Candidate>>)
    ensures ManualMode(request) ==> r == Ok(A.ManualCandidates(request.manualCompetitors))
    ensures !ManualMode(request) && P.GeocodeAddress(request.address, providers.geocoder).Err? ==>
      r == Err(P.GeocodeAddress(request.address, providers.geocoder).message)
    ensures !ManualMode(request) && r.Ok? ==> |r.value| <= P.CompetitorCount
  {
    if ManualMode(request) then Ok(A.ManualCandidates(request.manualCompetitors))
    else
      match P.GeocodeAddress(request.address, providers.geocoder)
      case Err(e) => Err(e)
      case Ok(geo) => P.DentalCompetitors(providers.nearby(geo.lat, geo.lng, P.SearchKeyword(request.practiceType)), providers.website)
  }

  /** The first step of `run_analysis`: the manual list, or the Places search around the geocoded address. */
  method FindCompetitors(request: AnalysisRequest, providers: Providers) returns (r: Result<seq<P.Candidate>>)
    ensures r == Competitors(request, providers)
  {
    if ManualMode(request) {
      r := Ok(A.ManualCandidates(request.manualCompetitors));
    } else {
      var geo := P.GeocodeAddress(request.address, providers.geocoder);
      if geo.Err? {
        r := Err(geo.message);
        return;
      }
      r := P.FindDentalCompetitors(geo.value.lat, geo.value.lng, request.practiceType, providers.nearby, providers.website);
    }
  }

  /** The on-page batch: the practice's own URL, then each competitor domain's homepage. */
  function PageUrls(request: AnalysisRequest, domains: seq<string>): seq<string> {
    [request.websiteUrl] + A.HomePages(domains)
  }

  /** The practice's domain, present for a non-empty website URL. */
  function PracticeDomain(request: AnalysisRequest): (d: Option<string>)
    requires request.websiteUrl != ""
    ensures d.Some?
  {
    P.ExtractDomain(Some(request.websiteUrl))
  }

  /** The report, once the competitors and the on-page records are in. */
  function Assemble(request: AnalysisRequest, providers: Providers, jobId: string, cs: seq<P.Candidate>, onPage: seq<P.OnPage>): (report: PyReport)
    requires request.websiteUrl != ""
    ensures report.id == jobId && report.practiceName == request.practiceName && report.practiceWebsite == request.websiteUrl
    ensures |report.keywordData| == |A.SearchKeywords| && |report.directoryListings| == |P.DentalDirectories|
  {
    var pd := PracticeDomain(request);
    var reviews := P.LookupPracticeReviews(request.practiceName, request.address, providers.textSearch);
    var domains := A.CompetitorDomains(cs);
    var keywords := A.KeywordsFor(A.ExtractCity(request.address));
    var backlinks := P.BacklinksSummary([pd.value] + domains, providers.backlinks);
    var results := P.KeywordRankings(keywords, providers.serp);
    var listings := P.DirectoryListings(request.practiceName, providers.serp);
    var entries := A.Flatten(results);
    var rankings := A.RankMapOf(entries, pd);
    var practice := A.PracticeRecord(request.practiceName, pd, request.websiteUrl, backlinks, onPage, rankings, reviews);
    var competitors := A.RecordsAsWritten(cs, backlinks, onPage, A.CompetitorMaps(entries, pd, domains));
    ReportFrom(request, jobId, keywords, rankings, practice, competitors, listings)
  }

  /** The report made from the records: the scores, the recommendations, and the keyword rows with their summary. */
  function ReportFrom(
    request: AnalysisRequest, jobId: string, keywords: seq<string>, rankings: A.RankMap,
    practice: A.PyRecord, competitors: seq<A.PyRecord>, listings: seq<P.Listing>): PyReport
  {
    var rows := A.KeywordRows(keywords, practice, competitors);
    PyReport(jobId, request.practiceName, request.websiteUrl,
      A.ScoresOf(practice, competitors, keywords), practice, competitors,
      R.GenerateRecommendations(practice, competitors, rankings, listings),
      rows, A.Summarize(keywords, rows), listings)
  }

  /** The rank maps of the keyword results, and the records of the practice and of each competitor. */
  method BuildRecords(
    request: AnalysisRequest, cs: seq<P.Candidate>, onPage: seq<P.OnPage>, reviews: P.PracticeReviews,
    backlinks: seq<P.Backlinks>, results: seq<P.KeywordResult>)
    returns (rankings: A.RankMap, practice: A.PyRecord, competitors: seq<A.PyRecord>)
    requires request.websiteUrl != ""
    ensures rankings == A.RankMapOf(A.Flatten(results), PracticeDomain(request))
    ensures practice == A.PracticeRecord(request.practiceName, PracticeDomain(request), request.websiteUrl, backlinks, onPage, rankings, reviews)
    ensures competitors == A.RecordsAsWritten(cs, backlinks, onPage,
      A.CompetitorMaps(A.Flatten(results), PracticeDomain(request), A.CompetitorDomains(cs)))
  {
    var pd := PracticeDomain(request);
    var maps;
    rankings, maps := A.ProcessRankings(results, pd, A.CompetitorDomains(cs));
    practice := A.PracticeRecord(request.practiceName, pd, request.websiteUrl, backlinks, onPage, rankings, reviews);
    competitors := A.RecordsAsWritten(cs, backlinks, onPage, maps);
  }

  /** The last step of `run_analysis`: scores, recommendations and keyword rows, gathered into the report. */
  method BuildReport(
    request: AnalysisRequest, jobId: string, keywords: seq<string>, rankings: A.RankMap,
    practice: A.PyRecord, competitors: seq<A.PyRecord>, listings: seq<P.Listing>)
    returns (report: PyReport)
    ensures report == ReportFrom(request, jobId, keywords, rankings, practice, competitors, listings)
  {
    var scores := A.CalculateScores(practice, competitors, keywords);
    var recommendations := R.GenerateRecommendations(practice, competitors, rankings, listings);
    var rows := A.BuildKeywordRows(keywords, practice, competitors);
    var summary := A.Summarize(keywords, rows);
    report := PyReport(jobId, request.practiceName, request.websiteUrl, scores, practice, competitors,
      recommendations, rows, summary, listings);
  }

  /**
   * What `run_analysis` does for a request: fail after the first update when
   * no competitors can be found, fail after the third when the on-page batch
   * raises, and otherwise build the report after all six.
   */
  function Analysis(request: AnalysisRequest, providers: Providers, jobId: string): (o: Outcome)
    requires request.websiteUrl != ""
    ensures o.reached <= |Steps|
  {
    match Competitors(request, providers)
    case Err(e) => Outcome(Err(e), 1)
    case Ok(cs) =>
      var urls := PageUrls(request, A.CompetitorDomains(cs));
      match P.OnPageAnalysis(urls, providers.onPage(urls))
      case Err(e) => Outcome(Err(e), 3)
      case Ok(onPage) => Outcome(Ok(Assemble(request, providers, jobId, cs, onPage)), |Steps|)
  }

  /** The three ways an analysis ends, and what it reports in each. */
  lemma AnalysisOutcomes(request: AnalysisRequest, providers: Providers, jobId: string)
    requires request.websiteUrl != ""
    ensures var o := Analysis(request, providers, jobId);
      && (o.reached == 1 <==> Competitors(request, providers).Err?)
      && (o.reached == 1 ==> o.result == Err(Competitors(request, providers).message))
      && (o.reached == 3 <==> Competitors(request, providers).Ok? && o.result.Err?)
      && (o.result.Ok? <==> o.reached == |Steps|)
      && (o.result.Ok? ==>
            && o.result.value.id == jobId
            && |o.result.value.keywordData| == 20 && |o.result.value.directoryListings| == 10
            && (!ManualMode(request) ==> |o.result.value.competitors| <= P.CompetitorCount))
  {
    var o := Analysis(request, providers, jobId);
    if o.result.Ok? {
      var cs := Competitors(request, providers).value;
      var urls := PageUrls(request, A.CompetitorDomains(cs));
      var onPage := P.OnPageAnalysis(urls, providers.onPage(urls)).value;
      assert o.result.value == Assemble(request, providers, jobId, cs, onPage);
      CompetitorRecordsBound(request, providers, jobId, cs, onPage);
    }
  }

  /** No competitors: the analysis fails with that error after the first update. */
  lemma FailsFinding(request: AnalysisRequest, providers: Providers, jobId: string)
    requires request.websiteUrl != "" && Competitors(request, providers).Err?
    ensures Analysis(request, providers, jobId) == Outcome(Err(Competitors(request, providers).message), 1)
  {
  }

  /** A failed on-page batch: the analysis fails with that error after the third update. */
  lemma FailsOnPage(request: AnalysisRequest, providers: Providers, jobId: string, cs: seq<P.Candidate>, pages: Result<seq<P.OnPage>>)
    requires request.websiteUrl != "" && Competitors(request, providers) == Ok(cs)
    requires pages == P.OnPageAnalysis(PageUrls(request, A.CompetitorDomains(cs)), providers.onPage(PageUrls(request, A.CompetitorDomains(cs))))
    requires pages.Err?
    ensures Analysis(request, providers, jobId) == Outcome(Err(pages.message), 3)
  {
  }

  /** Competitors and on-page figures in hand: the analysis completes with the assembled report. */
  lemma Completes(request: AnalysisRequest, providers: Providers, jobId: string, cs: seq<P.Candidate>, onPage: seq<P.OnPage>)
    requires request.websiteUrl != "" && Competitors(request, providers) == Ok(cs)
    requires P.OnPageAnalysis(PageUrls(request, A.CompetitorDomains(cs)), providers.onPage(PageUrls(request, A.CompetitorDomains(cs)))) == Ok(onPage)
    ensures Analysis(request, providers, jobId) == Outcome(Ok(Assemble(request, providers, jobId, cs, onPage)), |Steps|)
  {
  }

  /** There is one competitor record per competitor, with or without a domain. */
  lemma CompetitorRecordsBound(request: AnalysisRequest, providers: Providers, jobId: string, cs: seq<P.Candidate>, onPage: seq<P.OnPage>)
    requires request.websiteUrl != ""
    ensures |Assemble(request, providers, jobId, cs, onPage).competitors| == |cs|
  {
  }

  /** With a manual competitor list neither the geocoder nor the places search is consulted. */
  lemma ManualModeSkipsPlaces(
    request: AnalysisRequest, providers: Providers, jobId: string,
    geocoder: string -> GooglePlaces.GeocodeReply, nearby: (real, real, string) -> P.PlacesPage, website: string -> Option<string>)
    requires request.websiteUrl != "" && ManualMode(request)
    ensures Analysis(request, providers, jobId) == Analysis(request, providers.(geocoder := geocoder, nearby := nearby, website := website), jobId)
  {
  }

  /** An address the geocoder cannot place fails the automatic mode with the geocoding error, after the first update. */
  lemma GeocodingFailure(request: AnalysisRequest, providers: Providers, jobId: string)
    requires request.websiteUrl != "" && !ManualMode(request)
    requires providers.geocoder(request.address).status != "OK"
    ensures Analysis(request, providers, jobId) ==
      Outcome(Err("Geocoding failed: " + providers.geocoder(request.address).status), 1)
  {
  }

  // ---------------------------------------------------------------------------
  // Job records
  // ---------------------------------------------------------------------------

  datatype JobStatus = Processing | Completed | Failed

  function StatusName(s: JobStatus): string {
    match s
    case Processing => "processing"
    case Completed => "completed"
    case Failed => "failed"
  }

  /** The fields of a job record, at one moment. */
  datatype JobView = JobView(status: JobStatus, progress: int, message: string, result: Option<PyReport>, error: Option<string>)

  /** A job as `start_analysis` creates it. */
  const NewJob: JobView := JobView(Processing, 0, "Starting analysis...", None, None)

  const CompleteMessage: string := "Analysis complete!"

  function Stepped(v: JobView, s: Step): JobView {
    v.(progress := s.progress, message := s.message)
  }

  function Finished(v: JobView, report: PyReport): JobView {
    v.(status := Completed, progress := 100, message := CompleteMessage, result := Some(report))
  }

  function Failure(v: JobView, message: string): JobView {
    v.(status := Failed, error := Some(message))
  }

  /** A job after the first `n` progress updates: the last one shows. */
  function AfterSteps(v: JobView, n: nat): JobView
    requires n <= |Steps|
  {
    if n == 0 then v else Stepped(v, Steps[n - 1])
  }

  /** A job after `run_analysis` has ended with outcome `o`. */
  function Processed(v: JobView, o: Outcome): JobView
    requires o.reached <= |Steps|
  {
    var w := AfterSteps(v, o.reached);
    match o.result
    case Ok(report) => Finished(w, report)
    case Err(message) => Failure(w, message)
  }

  /** Every state a job passes through while `run_analysis` runs, first to last. */
  function Trace(v: JobView, o: Outcome): (t: seq<JobView>)
    requires o.reached <= |Steps|
    ensures |t| == o.reached + 2 && t[0] == v && t[|t| - 1] == Processed(v, o)
  {
    [v] + seq(o.reached, i requires 0 <= i < o.reached => Stepped(v, Steps[i])) + [Processed(v, o)]
  }

  /** The lifecycle: processing stays processing while it reports, then completed or failed. */
  predicate Allowed(a: JobStatus, b: JobStatus) {
    a == Processing && (b == Processing || b == Completed || b == Failed)
  }

  /** A new job moves only along the lifecycle, and its progress never goes back. */
  lemma TraceFollowsLifecycle(o: Outcome)
    requires o.reached <= |Steps|
    ensures var t := Trace(NewJob, o);
      forall i :: 0 <= i < |t| - 1 ==> Allowed(t[i].status, t[i + 1].status) && t[i].progress <= t[i + 1].progress
  {
    var t := Trace(NewJob, o);
    assert t[|t| - 2] == AfterSteps(NewJob, o.reached);
    forall i | 0 <= i < |t| - 1 ensures Allowed(t[i].status, t[i + 1].status) && t[i].progress <= t[i + 1].progress {
      if i == |t| - 2 {
        assert t[i + 1] == Processed(NewJob, o);
      } else {
        assert t[i + 1] == Stepped(NewJob, Steps[i]);
        if i >= 1 {
          assert t[i] == Stepped(NewJob, Steps[i - 1]);
        }
      }
    }
  }

  /**
   * What an ended job shows: completed at 100% with the report exactly when
   * the analysis succeeded; otherwise failed with the error, at the
   * percentage of the last update it reached.
   */
  lemma ProcessedJob(v: JobView, o: Outcome)
    requires 1 <= o.reached <= |Steps|
    ensures var w := Processed(v, o);
      && (w.status == Completed <==> o.result.Ok?)
      && (w.status == Failed <==> o.result.Err?)
      && (o.result.Ok? ==> w.progress == 100 && w.message == CompleteMessage && w.result == Some(o.result.value) && w.error == v.error)
      && (o.result.Err? ==>
            w.progress == Steps[o.reached - 1].progress && w.message == Steps[o.reached - 1].message
            && w.error == Some(o.result.message) && w.result == v.result)
  {
  }

  /** A record in the job store, updated in place by the background analysis. */
  class PyJob {
    var status: JobStatus
    var progress: int
    var message: string
    var result: Option<PyReport>
    var error: Option<string>

    function View(): JobView
      reads this
    {
      JobView(status, progress, message, result, error)
    }

    /** A processing job at 0% with the starting message. */
    constructor ()
      ensures View() == NewJob
    {
      status := Processing;
      progress := 0;
      message := "Starting analysis...";
      result := None;
      error := None;
    }

    /**
     * The body of `run_analysis` on this job: each step updates the progress,
     * then the job ends completed with the report or failed with the error.
     * `views` records every state the job shows, from the first to the last.
     */
    method Run(request: AnalysisRequest, providers: Providers, id: string) returns (ghost views: seq<JobView>)
      requires request.websiteUrl != ""
      modifies this
      ensures View() == Processed(old(View()), Analysis(request, providers, id))
      ensures views == Trace(old(View()), Analysis(request, providers, id))
    {
      ghost var start := View();
      var reviews, found, shown := FindingStep(request, providers, start);
      if found.Err? {
        Fail(found.message);
        FailsFinding(request, providers, id);
        views := shown + [View()];
        TraceIs(start, Analysis(request, providers, id), views);
        return;
      }
      var cs := found.value;
      var keywords := A.KeywordsFor(A.ExtractCity(request.address));
      var backlinks, pages;
      backlinks, pages, shown := AuditStep(request, providers, cs, start, shown);
      if pages.Err? {
        Fail(pages.message);
        FailsOnPage(request, providers, id, cs, pages);
        views := shown + [View()];
        TraceIs(start, Analysis(request, providers, id), views);
        return;
      }
      var report;
      report, shown := ReportStep(request, providers, id, cs, pages.value, reviews, keywords, backlinks, start, shown);
      Completes(request, providers, id, cs, pages.value);
      Complete(report);
      views := shown + [View()];
      TraceIs(start, Analysis(request, providers, id), views);
    }

    /** The first update, then the practice's own reviews and the competitors. */
    method FindingStep(request: AnalysisRequest, providers: Providers, ghost start: JobView)
      returns (reviews: P.PracticeReviews, found: Result<seq<P.Candidate>>, ghost views: seq<JobView>)
      requires View() == start
      modifies this
      ensures View() == Stepped(start, Steps[0]) && views == Shown(start, 1)
      ensures reviews == P.LookupPracticeReviews(request.practiceName, request.address, providers.textSearch)
      ensures found == Competitors(request, providers)
    {
      Advance(Steps[0]);
      Reaching(start, 0, [start]);
      views := [start, View()];
      reviews := P.LookupPracticeReviews(request.practiceName, request.address, providers.textSearch);
      found := FindCompetitors(request, providers);
    }

    /** The second and third updates: the backlink figures, then the on-page batch. */
    method AuditStep(request: AnalysisRequest, providers: Providers, cs: seq<P.Candidate>, ghost start: JobView, ghost shown: seq<JobView>)
      returns (backlinks: seq<P.Backlinks>, pages: Result<seq<P.OnPage>>, ghost views: seq<JobView>)
      requires request.websiteUrl != ""
      requires View() == Stepped(start, Steps[0]) && shown == Shown(start, 1)
      modifies this
      ensures View() == Stepped(start, Steps[2]) && views == Shown(start, 3)
      ensures backlinks == P.BacklinksSummary([PracticeDomain(request).value] + A.CompetitorDomains(cs), providers.backlinks)
      ensures pages == P.OnPageAnalysis(PageUrls(request, A.CompetitorDomains(cs)), providers.onPage(PageUrls(request, A.CompetitorDomains(cs))))
    {
      var domains := A.CompetitorDomains(cs);
      Advance(Steps[1]);
      Reaching(start, 1, shown);
      views := shown + [View()];
      backlinks := P.GetBacklinksSummary([PracticeDomain(request).value] + domains, providers.backlinks);

      Advance(Steps[2]);
      Reaching(start, 2, views);
      views := views + [View()];
      pages := P.GetOnPageAnalysis(PageUrls(request, domains), providers.onPage);
    }

    /** The last three updates: the rankings, the directory listings, and the report. */
    method ReportStep(
      request: AnalysisRequest, providers: Providers, id: string, cs: seq<P.Candidate>, onPage: seq<P.OnPage>,
      reviews: P.PracticeReviews, keywords: seq<string>, backlinks: seq<P.Backlinks>, ghost start: JobView, ghost shown: seq<JobView>)
      returns (report: PyReport, ghost views: seq<JobView>)
      requires request.websiteUrl != ""
      requires View() == Stepped(start, Steps[2]) && shown == Shown(start, 3)
      requires reviews == P.LookupPracticeReviews(request.practiceName, request.address, providers.textSearch)
      requires keywords == A.KeywordsFor(A.ExtractCity(request.address))
      requires backlinks == P.BacklinksSummary([PracticeDomain(request).value] + A.CompetitorDomains(cs), providers.backlinks)
      modifies this
      ensures View() == Stepped(start, Steps[5]) && views == Shown(start, 6)
      ensures report == Assemble(request, providers, id, cs, onPage)
    {
      var results, listings;
      results, listings, views := RankStep(request, providers, keywords, start, shown);
      var rankings, practice, competitors := BuildRecords(request, cs, onPage, reviews, backlinks, results);

      Advance(Steps[5]);
      Reaching(start, 5, views);
      views := views + [View()];
      report := BuildReport(request, id, keywords, rankings, practice, competitors, listings);
    }

    /** The fourth and fifth updates: the keyword rankings, then the directory listings. */
    method RankStep(request: AnalysisRequest, providers: Providers, keywords: seq<string>, ghost start: JobView, ghost shown: seq<JobView>)
      returns (results: seq<P.KeywordResult>, listings: seq<P.Listing>, ghost views: seq<JobView>)
      requires View() == Stepped(start, Steps[2]) && shown == Shown(start, 3)
      modifies this
      ensures View() == Stepped(start, Steps[4]) && views == Shown(start, 5)
      ensures results == P.KeywordRankings(keywords, providers.serp)
      ensures listings == P.DirectoryListings(request.practiceName, providers.serp)
    {
      Advance(Steps[3]);
      Reaching(start, 3, shown);
      views := shown + [View()];
      results := P.GetKeywordRankings(keywords, providers.serp);

      Advance(Steps[4]);
      Reaching(start, 4, views);
      views := views + [View()];
      listings := P.CheckDirectoryListings(request.practiceName, providers.serp);
    }

    method Advance(s: Step)
      modifies this
      ensures View() == Stepped(old(View()), s)
    {
      progress := s.progress;
      message := s.message;
    }

    method Complete(report: PyReport)
      modifies this
      ensures View() == Finished(old(View()), report)
    {
      status := Completed;
      progress := 100;
      message := CompleteMessage;
      result := Some(report);
    }

    method Fail(e: string)
      modifies this
      ensures View() == Failure(old(View()), e)
    {
      status := Failed;
      error := Some(e);
    }
  }

  // ---------------------------------------------------------------------------
  // Replies
  // ---------------------------------------------------------------------------

  /** The JSON fields of the `/start` body; a missing field is None. */
  datatype StartBody = StartBody(
    practiceName: Option<string>,
    address: Option<string>,
    websiteUrl: Option<string>,
    practiceType: Option<string>,
    competitorMode: Option<string>,
    manualCompetitors: Option<seq<string>>)

  datatype Body =
    | ErrorBody(error: string)
    | FailedBody(failure: Option<string>)
    | Started(jobId: string, startedStatus: string)
    | StatusBody(statusJob: string, status: string, progress: int, progressMessage: string)
    | InProgress(message: string, progressStatus: string)
    | ReportBody(report: PyReport)
    | Discovered(location: GooglePlaces.GeocodingResult, competitors: seq<P.Candidate>)
    /** `jsonify(None)`: the JSON `null`. */
    | NullBody

  datatype Response = Response(code: int, body: Body)

  const MissingFields: string := "Missing required fields"
  const JobNotFound: string := "Job not found"
  const AddressRequired: string := "Address is required"

  /** The three required fields are present and non-empty. */
  predicate Complete(body: StartBody) {
    Truthy(body.practiceName) && Truthy(body.address) && Truthy(body.websiteUrl)
  }

  /** The request `start_analysis` passes on: the defaults are `general`, `auto` and no manual competitors. */
  function RequestOf(body: StartBody): (r: AnalysisRequest)
    requires Complete(body)
    ensures r.websiteUrl != ""
    ensures ManualMode(r) <==> body.competitorMode == Some("manual") && body.manualCompetitors.GetOr([]) != []
  {
    AnalysisRequest(body.practiceName.value, body.address.value, body.websiteUrl.value,
      body.competitorMode.GetOr("auto"), body.practiceType.GetOr("general"), body.manualCompetitors.GetOr([]))
  }

  /** The `/start` reply: 400 unless the three required fields are there, otherwise the new job's id. */
  function StartReply(body: StartBody, jobId: string): (r: Response)
    ensures r.code == 400 <==> !Complete(body)
    ensures r.code == 400 ==> r.body == ErrorBody(MissingFields)
    ensures r.code != 400 ==> r == Response(200, Started(jobId, "processing"))
  {
    if !Complete(body) then Response(400, ErrorBody(MissingFields))
    else Response(200, Started(jobId, StatusName(Processing)))
  }

  /** `jobs`: job id → job record. */
  class JobStore {
    var jobs: map<string, PyJob>

    constructor ()
      ensures jobs == map[]
    {
      jobs := map[];
    }

    /** The job under `id`, as the routes see it. */
    function ViewOf(id: string): (v: Option<JobView>)
      reads this, jobs.Values
      ensures v.Some? <==> id in jobs
    {
      if id in jobs then Some(jobs[id].View()) else None
    }

    /**
     * `start_analysis`: an incomplete body leaves the store alone; a complete
     * one stores a new processing job under the fresh id and hands the
     * request on to the background analysis.
     */
    method Start(body: StartBody, id: string) returns (response: Response, accepted: Option<AnalysisRequest>)
      modifies this
      ensures response == StartReply(body, id)
      ensures !Complete(body) ==> accepted.None? && jobs == old(jobs)
      ensures Complete(body) ==>
        && accepted == Some(RequestOf(body))
        && jobs.Keys == old(jobs).Keys + {id}
        && fresh(jobs[id]) && jobs[id].View() == NewJob
        && forall other :: other in old(jobs) && other != id ==> jobs[other] == old(jobs)[other]
    {
      if !Complete(body) {
        response := Response(400, ErrorBody(MissingFields));
        accepted := None;
        return;
      }
      var job := new PyJob();
      jobs := jobs[id := job];
      response := Response(200, Started(id, "processing"));
      accepted := Some(RequestOf(body));
    }

    /**
     * `run_analysis`: each step updates the job's progress, then the job
     * ends completed with the report or failed with the error. An unknown
     * id changes nothing. `views` records every state the job shows, from
     * the first to the last.
     */
    method RunAnalysis(id: string, request: AnalysisRequest, providers: Providers) returns (ghost views: seq<JobView>)
      requires request.websiteUrl != ""
      modifies if id in jobs then {jobs[id]} else {}
      ensures id in jobs ==> jobs[id].View() == Processed(old(jobs[id].View()), Analysis(request, providers, id))
      ensures id in jobs ==> views == Trace(old(jobs[id].View()), Analysis(request, providers, id))
      ensures id !in jobs ==> views == []
    {
      views := [];
      if id !in jobs {
        return;
      }
      views := jobs[id].Run(request, providers, id);
    }
  }

  /** The states a job shows from `v` through its first `n` updates. */
  function Shown(v: JobView, n: nat): (t: seq<JobView>)
    requires n <= |Steps|
    ensures |t| == n + 1 && t[0] == v
  {
    [v] + seq(n, i requires 0 <= i < n => Stepped(v, Steps[i]))
  }

  /** One more update shows the next step on the starting job. */
  lemma Reaching(v: JobView, n: nat, views: seq<JobView>)
    requires n < |Steps| && views == Shown(v, n)
    ensures views + [Stepped(v, Steps[n])] == Shown(v, n + 1)
  {
  }

  /** The states recorded one by one: the start, one per update reached, and the end. */
  lemma TraceIs(v: JobView, o: Outcome, views: seq<JobView>)
    requires o.reached <= |Steps|
    requires views == Shown(v, o.reached) + [Processed(v, o)]
    ensures views == Trace(v, o)
  {
  }

  // ---------------------------------------------------------------------------
  // GET /<job_id>/status, GET /<job_id>/report
  // ---------------------------------------------------------------------------

  /** The status reply: 404 for an unknown job, otherwise its status, progress and message. */
  function StatusReply(jobId: string, job: Option<JobView>): (r: Response)
    ensures r.code == 404 <==> job.None?
    ensures job.None? ==> r.body == ErrorBody(JobNotFound)
    ensures job.Some? ==> r == Response(200, StatusBody(jobId, StatusName(job.value.status), job.value.progress, job.value.message))
  {
    match job
    case None => Response(404, ErrorBody(JobNotFound))
    case Some(v) => Response(200, StatusBody(jobId, StatusName(v.status), v.progress, v.message))
  }

  /**
   * The report reply: 404 for an unknown job, 500 with the job's error when
   * it failed, 202 while it is processing, and the report once completed.
   */
  function ReportReply(job: Option<JobView>): (r: Response)
    ensures r.code == 404 <==> job.None?
    ensures r.code == 500 <==> job.Some? && job.value.status == Failed
    ensures r.code == 202 <==> job.Some? && job.value.status == Processing
    ensures r.code == 404 ==> r.body == ErrorBody(JobNotFound)
    ensures r.code == 500 ==> r.body == FailedBody(job.value.error)
    ensures r.code == 202 ==> r.body == InProgress("Analysis still in progress", "processing")
    ensures job.Some? && job.value.status == Completed && job.value.result.Some? ==> r == Response(200, ReportBody(job.value.result.value))
    ensures job.Some? && job.value.status == Completed && job.value.result.None? ==> r == Response(200, NullBody)
  {
    match job
    case None => Response(404, ErrorBody(JobNotFound))
    case Some(v) =>
      if v.status == Failed then Response(500, FailedBody(v.error))
      else if v.status != Completed then Response(202, InProgress("Analysis still in progress", StatusName(v.status)))
      else match v.result
        case Some(report) => Response(200, ReportBody(report))
        // a completed job always holds its result (see Processed), so this is the
        // reply to a job store no run produces
        case None => Response(200, NullBody)
  }

  /** After a started job has run, its report reply is the report, or a 500 with the analysis's error. */
  lemma ReportAfterRun(request: AnalysisRequest, providers: Providers, jobId: string)
    requires request.websiteUrl != ""
    ensures var o := Analysis(request, providers, jobId);
      var reply := ReportReply(Some(Processed(NewJob, o)));
      && (o.result.Ok? ==> reply == Response(200, ReportBody(o.result.value)))
      && (o.result.Err? ==> reply == Response(500, FailedBody(Some(o.result.message))))
  {
  }

  // ---------------------------------------------------------------------------
  // POST /discover-competitors
  // ---------------------------------------------------------------------------

  /**
   * The preview: 400 without an address; 500 with the error when geocoding
   * or the places search fails; otherwise the location and the competitors
   * of a general dentist search.
   */
  function DiscoverReply(address: Option<string>, providers: Providers): (r: Response)
    ensures !Truthy(address) ==> r == Response(400, ErrorBody(AddressRequired))
    ensures Truthy(address) && P.GeocodeAddress(address.value, providers.geocoder).Err? ==>
      r == Response(500, ErrorBody(P.GeocodeAddress(address.value, providers.geocoder).message))
    ensures Truthy(address) && P.GeocodeAddress(address.value, providers.geocoder).Ok? ==>
      var geo := P.GeocodeAddress(address.value, providers.geocoder).value;
      var found := P.DentalCompetitors(providers.nearby(geo.lat, geo.lng, "dentist"), providers.website);
      && (found.Err? ==> r == Response(500, ErrorBody(found.message)))
      && (found.Ok? ==> r == Response(200, Discovered(geo, found.value)))
    ensures r.code == 200 ==>
      && Truthy(address) && P.GeocodeAddress(address.value, providers.geocoder).Ok?
      && var geo := P.GeocodeAddress(address.value, providers.geocoder).value;
         var found := P.DentalCompetitors(providers.nearby(geo.lat, geo.lng, "dentist"), providers.website);
         && found.Ok? && r.body == Discovered(geo, found.value)
         && |r.body.competitors| <= P.CompetitorCount
    ensures r.code == 400 || r.code == 500 || r.code == 200
  {
    if !Truthy(address) then Response(400, ErrorBody(AddressRequired))
    else
      match P.GeocodeAddress(address.value, providers.geocoder)
      case Err(e) => Response(500, ErrorBody(e))
      case Ok(geo) =>
        match P.DentalCompetitors(providers.nearby(geo.lat, geo.lng, P.SearchKeyword("general")), providers.website)
        case Err(e) => Response(500, ErrorBody(e))
        case Ok(cs) => Response(200, Discovered(geo, cs))
  }
}

/**
 * The HTTP routes of the TypeScript backend (backend/src/routes/analysis.ts):
 * validation of `/start`, the in-memory job records and their lifecycle in
 * `processAnalysis`, the status and report responses, `/discover-competitors`,
 * `/validate-urls` and `serializeReport`.
 *
 * A request body is reduced to the fields each route reads. A handler's reply
 * is a status code and a body; the job store is a class whose job records
 * are updated in place, as the source's `analysisJobs` map holds them.
 */
module AnalysisRoutes {
  import opened Wrappers
  import opened Text
  import GooglePlaces
  import SeoAnalyzer

  // ---------------------------------------------------------------------------
  // Request bodies and replies
  // ---------------------------------------------------------------------------

  /** A body field that must be an array: anything else (missing, null, a string, ...) or an array. */
  datatype ArrayField<T> = NotArray | Array(items: seq<T>)

  /** A JSON value that is a string, or of any other type. */
  datatype JsonValue = JsonString(s: string) | OtherJson

  /** The fields `/start` reads; the text fields are strings or missing. */
  datatype StartBody = StartBody(
    practiceName: Option<string>,
    address: Option<string>,
    websiteUrl: Option<string>,
    competitorMode: Option<string>,
    manualCompetitors: ArrayField<string>)

  /** A keyword → position object, as `Object.fromEntries` builds it from a rankings map. */
  type RankingObject = map<string, Option<int>>

  /** A practice or competitor record with its rankings turned into an object. */
  datatype SerializedCompetitor = SerializedCompetitor(
    name: string,
    domain: string,
    website: string,
    backlinks: SeoAnalyzer.BacklinkFigures,
    onPage: SeoAnalyzer.OnPageFigures,
    rankings: RankingObject)

  /** The report as it is stored in a completed job and sent to the client. */
  datatype SerializedReport = SerializedReport(
    id: string,
    practiceName: string,
    practiceWebsite: string,
    createdAt: int,
    practiceData: SerializedCompetitor,
    competitors: seq<SerializedCompetitor>,
    scores: SeoAnalyzer.Scores,
    recommendations: seq<SeoAnalyzer.Recommendation>,
    keywordData: seq<SeoAnalyzer.KeywordComparison>)

  /** One entry of the `/validate-urls` reply. */
  datatype UrlCheck = UrlCheck(original: JsonValue, domain: Option<string>, valid: bool, error: Option<string>)

  /** One entry of the `/discover-competitors` reply. */
  datatype CompetitorPreview = CompetitorPreview(
    name: string,
    address: string,
    website: Option<string>,
    domain: Option<string>,
    rating: Option<real>,
    reviewCount: int)

  datatype Body =
    | ErrorBody(error: string)
    | Started(jobId: string, status: string, message: string)
    | StatusBody(jobId: string, status: string, progress: int, progressMessage: string)
    | InProgress(message: string, status: string, progress: int)
    | ReportBody(report: Option<SerializedReport>)
    | Discovered(location: GooglePlaces.GeocodingResult, competitors: seq<CompetitorPreview>)
    | UrlsBody(urls: seq<UrlCheck>)

  /** An HTTP reply: the status code and the JSON body. */
  datatype Response = Response(code: int, body: Body)

  const MissingFields: string := "Missing required fields: practiceName, address, websiteUrl"
  const BadMode: string := "competitorMode must be \"auto\" or \"manual\""
  const NoManualList: string := "manualCompetitors array is required for manual mode"
  const TooManyCompetitors: string := "Maximum 10 competitors allowed"
  const JobNotFound: string := "Job not found"
  const AddressRequired: string := "Address is required"
  const UrlsRequired: string := "urls array is required"
  const InvalidUrl: string := "Invalid URL format"

  /** The most competitor URLs a manual analysis accepts. */
  const MaxManualCompetitors: nat := 10

  /** `message || fallback`: an empty error message is replaced by the fallback. */
  function MessageOr(message: string, fallback: string): (m: string)
    ensures message != "" ==> m == message
    ensures message == "" ==> m == fallback
  {
    if message == "" then fallback else message
  }

  // ---------------------------------------------------------------------------
  // POST /start: validation
  // ---------------------------------------------------------------------------

  predicate KnownMode(mode: Option<string>) {
    mode == Some("auto") || mode == Some("manual")
  }

  /** A manual analysis needs a non-empty list of at most ten competitor URLs. */
  predicate ManualListAccepted(list: ArrayField<string>) {
    list.Array? && 0 < |list.items| <= MaxManualCompetitors
  }

  /**
   * The checks of `/start`, in order: the three text fields, the mode, and in
   * manual mode the competitor list. An accepted body becomes the analysis
   * request; the list is passed on whenever it is an array.
   */
  function ValidateStart(body: StartBody): (r: Result<SeoAnalyzer.AnalysisRequest>)
    ensures r.Ok? <==>
      Truthy(body.practiceName) && Truthy(body.address) && Truthy(body.websiteUrl)
      && KnownMode(body.competitorMode)
      && (body.competitorMode == Some("manual") ==> ManualListAccepted(body.manualCompetitors))
    ensures !(Truthy(body.practiceName) && Truthy(body.address) && Truthy(body.websiteUrl)) ==> r == Err(MissingFields)
    ensures Truthy(body.practiceName) && Truthy(body.address) && Truthy(body.websiteUrl) && !KnownMode(body.competitorMode) ==>
      r == Err(BadMode)
    ensures r.Err? && body.competitorMode == Some("manual") && r.message != MissingFields ==>
      r.message == (if body.manualCompetitors.Array? && |body.manualCompetitors.items| > 0 then TooManyCompetitors else NoManualList)
    ensures r.Ok? ==>
      && r.value.practiceName == body.practiceName.value
      && r.value.address == body.address.value
      && r.value.websiteUrl == body.websiteUrl.value
      && r.value.city.None?
      && Some(r.value.competitorMode) == body.competitorMode
      && (SeoAnalyzer.ManualMode(r.value) <==> body.competitorMode == Some("manual"))
      && (SeoAnalyzer.ManualMode(r.value) ==> r.value.manualCompetitors == Some(body.manualCompetitors.items))
  {
    if !Truthy(body.practiceName) || !Truthy(body.address) || !Truthy(body.websiteUrl) then Err(MissingFields)
    else if !KnownMode(body.competitorMode) then Err(BadMode)
    else if body.competitorMode == Some("manual") && (body.manualCompetitors.NotArray? || |body.manualCompetitors.items| == 0) then
      Err(NoManualList)
    else if body.competitorMode == Some("manual") && |body.manualCompetitors.items| > MaxManualCompetitors then
      Err(TooManyCompetitors)
    else
      var list := if body.manualCompetitors.Array? then Some(body.manualCompetitors.items) else None;
      Ok(SeoAnalyzer.AnalysisRequest(
        body.practiceName.value, body.address.value, body.websiteUrl.value,
        body.competitorMode.value, list, None))
  }

  /** The reply of `/start`: 400 with the first failed check, or the new job's id. */
  function StartReply(body: StartBody, jobId: string): (r: Response)
    ensures r.code == 400 <==> ValidateStart(body).Err?
    ensures r.code == 400 ==> r.body == ErrorBody(ValidateStart(body).message)
    ensures r.code != 400 ==> r.code == 200 && r.body == Started(jobId, "pending", "Analysis started")
  {
    match ValidateStart(body)
    case Err(message) => Response(400, ErrorBody(message))
    case Ok(_) => Response(200, Started(jobId, "pending", "Analysis started"))
  }

  // ---------------------------------------------------------------------------
  // serializeReport
  // ---------------------------------------------------------------------------

  /** The property name a map key becomes: the keyword, or `undefined` for a missing one. */
  function KeyString(k: Option<string>): string {
    if k.Some? then k.value else "undefined"
  }

  /**
   * `Object.fromEntries` of a rankings map: one property per key's name.
   * When both a keyword literally named `undefined` and the missing keyword
   * are present, `Object.fromEntries` keeps whichever the Map inserted last;
   * the model, which has no insertion order, lets the named keyword win. The
   * fixed keyword list never holds such a keyword.
   */
  function FromEntries(m: SeoAnalyzer.Rankings): (o: RankingObject)
    ensures o.Keys == set k | k in m :: KeyString(k)
    ensures forall s :: Some(s) in m ==> s in o && o[s] == m[Some(s)]
    ensures None in m && Some("undefined") !in m ==> o["undefined"] == m[None]
  {
    map s | s in (set k | k in m :: KeyString(k)) ::
      if Some(s) in m then m[Some(s)] else if None in m then m[None] else None
  }

  /** Reading an object back as a rankings map: each property is a keyword. */
  function ToRankings(o: RankingObject): (m: SeoAnalyzer.Rankings)
    ensures None !in m
    ensures forall s :: Some(s) in m <==> s in o
    ensures forall s :: s in o ==> m[Some(s)] == o[s]
  {
    map s | s in o :: Some(s) := o[s]
  }

  /** A rankings map without the missing keyword survives the conversion to an object and back. */
  lemma RankingsRoundTrip(m: SeoAnalyzer.Rankings)
    requires None !in m
    ensures ToRankings(FromEntries(m)) == m
  {
    var back := ToRankings(FromEntries(m));
    forall k | k in m ensures k in back && back[k] == m[k] {
      assert k == Some(k.value);
    }
    forall k | k in back ensures k in m {
      assert k == Some(k.value);
      assert k.value in FromEntries(m);
    }
  }

  /** Every object is the serialization of the map read back from it. */
  lemma ObjectRoundTrip(o: RankingObject)
    ensures FromEntries(ToRankings(o)) == o
  {
    var m := ToRankings(o);
    forall s | s in o ensures s in FromEntries(m) {
      assert KeyString(Some(s)) == s;
    }
    forall s | s in FromEntries(m) ensures s in o {
      var k :| k in m && KeyString(k) == s;
      assert k == Some(k.value);
    }
  }

  function SerializeCompetitor(c: SeoAnalyzer.CompetitorData): (r: SerializedCompetitor)
    ensures r.name == c.name && r.domain == c.domain && r.website == c.website
    ensures r.backlinks == c.backlinks && r.onPage == c.onPage
    ensures r.rankings == FromEntries(c.rankings)
  {
    SerializedCompetitor(c.name, c.domain, c.website, c.backlinks, c.onPage, FromEntries(c.rankings))
  }

  function SerializeCompetitors(cs: seq<SeoAnalyzer.CompetitorData>): (rs: seq<SerializedCompetitor>)
    ensures |rs| == |cs| && forall i :: 0 <= i < |cs| ==> rs[i] == SerializeCompetitor(cs[i])
  {
    seq(|cs|, i requires 0 <= i < |cs| => SerializeCompetitor(cs[i]))
  }

  /** `serializeReport`: the rankings of the practice and of every competitor become objects; nothing else changes. */
  function SerializeReport(report: SeoAnalyzer.AnalysisReport): (r: SerializedReport)
    ensures r.id == report.id && r.practiceName == report.practiceName
    ensures r.practiceWebsite == report.practiceWebsite && r.createdAt == report.createdAt
    ensures r.practiceData == SerializeCompetitor(report.practiceData)
    ensures |r.competitors| == |report.competitors|
    ensures forall i :: 0 <= i < |report.competitors| ==> r.competitors[i] == SerializeCompetitor(report.competitors[i])
    ensures r.scores == report.scores && r.recommendations == report.recommendations && r.keywordData == report.keywordData
  {
    SerializedReport(
      report.id, report.practiceName, report.practiceWebsite, report.createdAt,
      SerializeCompetitor(report.practiceData), SerializeCompetitors(report.competitors),
      report.scores, report.recommendations, report.keywordData)
  }

  /** Reading a stored report back, each rankings object as a map. */
  function DeserializeCompetitor(c: SerializedCompetitor): SeoAnalyzer.CompetitorData {
    SeoAnalyzer.CompetitorData(c.name, c.domain, c.website, c.backlinks, c.onPage, ToRankings(c.rankings))
  }

  function DeserializeReport(r: SerializedReport): (report: SeoAnalyzer.AnalysisReport)
    ensures |report.competitors| == |r.competitors|
    ensures forall i :: 0 <= i < |r.competitors| ==> report.competitors[i] == DeserializeCompetitor(r.competitors[i])
  {
    SeoAnalyzer.AnalysisReport(
      r.id, r.practiceName, r.practiceWebsite, r.createdAt,
      DeserializeCompetitor(r.practiceData),
      seq(|r.competitors|, i requires 0 <= i < |r.competitors| => DeserializeCompetitor(r.competitors[i])),
      r.scores, r.recommendations, r.keywordData)
  }

  /** No rankings map of the report has the missing keyword as a key. */
  predicate KeyedByKeywords(report: SeoAnalyzer.AnalysisReport) {
    None !in report.practiceData.rankings
    && forall i :: 0 <= i < |report.competitors| ==> None !in report.competitors[i].rankings
  }

  /** Serialization loses nothing when every ranking is keyed by a keyword. */
  lemma ReportRoundTrip(report: SeoAnalyzer.AnalysisReport)
    requires KeyedByKeywords(report)
    ensures DeserializeReport(SerializeReport(report)) == report
  {
    var back := DeserializeReport(SerializeReport(report));
    RankingsRoundTrip(report.practiceData.rankings);
    forall i | 0 <= i < |report.competitors| ensures back.competitors[i] == report.competitors[i] {
      RankingsRoundTrip(report.competitors[i].rankings);
    }
  }

  // ---------------------------------------------------------------------------
  // Job records
  // ---------------------------------------------------------------------------

  datatype JobStatus = Pending | Processing | Completed | Failed

  function StatusName(s: JobStatus): string {
    match s
    case Pending => "pending"
    case Processing => "processing"
    case Completed => "completed"
    case Failed => "failed"
  }

  /** The fields of a job record the routes read, at one moment. */
  datatype JobView = JobView(
    status: JobStatus,
    progress: int,
    progressMessage: string,
    result: Option<SerializedReport>,
    error: Option<string>)

  /** A job as `/start` creates it. */
  const NewJob: JobView := JobView(Pending, 0, "Starting analysis...", None, None)

  const CompleteMessage: string := "Analysis complete!"

  function Began(v: JobView): JobView {
    v.(status := Processing)
  }

  function Reported(v: JobView, step: SeoAnalyzer.ProgressStep): JobView {
    v.(progress := step.percent, progressMessage := step.step)
  }

  function Finished(v: JobView, report: SerializedReport): JobView {
    v.(status := Completed, progress := 100, progressMessage := CompleteMessage, result := Some(report))
  }

  function Failure(v: JobView, message: string): JobView {
    v.(status := Failed, error := Some(MessageOr(message, "Analysis failed")))
  }

  /** A job after the progress reports `steps`: the last one shows. */
  function AfterReports(v: JobView, steps: seq<SeoAnalyzer.ProgressStep>): JobView {
    if steps == [] then v else Reported(v, steps[|steps| - 1])
  }

  /** What a job starting at `v` shows after each of the progress reports `steps`. */
  function Reports(v: JobView, steps: seq<SeoAnalyzer.ProgressStep>): (t: seq<JobView>)
    ensures |t| == |steps|
  {
    if steps == [] then [] else Reports(v, steps[..|steps| - 1]) + [Reported(v, steps[|steps| - 1])]
  }

  /** A job after `processAnalysis` has run an analysis with outcome `o`. */
  function Processed(v: JobView, o: SeoAnalyzer.Outcome): JobView
    requires o.reported <= |SeoAnalyzer.Progress|
  {
    var w := AfterReports(Began(v), SeoAnalyzer.Progress[..o.reported]);
    match o.result
    case Ok(report) => Finished(w, SerializeReport(report))
    case Err(message) => Failure(w, message)
  }

  /** Every state a job passes through while `processAnalysis` runs, first to last. */
  function Trace(v: JobView, o: SeoAnalyzer.Outcome): (t: seq<JobView>)
    requires o.reported <= |SeoAnalyzer.Progress|
    ensures |t| == o.reported + 3 && t[0] == v && t[|t| - 1] == Processed(v, o)
  {
    [v, Began(v)]
    + seq(o.reported, i requires 0 <= i < o.reported => Reported(Began(v), SeoAnalyzer.Progress[i]))
    + [Processed(v, o)]
  }

  /** The lifecycle: pending → processing, processing stays processing while it reports, then completed or failed. */
  predicate Allowed(a: JobStatus, b: JobStatus) {
    (a == Pending && b == Processing)
    || (a == Processing && (b == Processing || b == Completed || b == Failed))
  }

  /** A new job moves only along the lifecycle, and its progress never goes back. */
  lemma TraceFollowsLifecycle(o: SeoAnalyzer.Outcome)
    requires o.reported <= |SeoAnalyzer.Progress|
    ensures var t := Trace(NewJob, o);
      forall i :: 0 <= i < |t| - 1 ==> Allowed(t[i].status, t[i + 1].status) && t[i].progress <= t[i + 1].progress
  {
    var t := Trace(NewJob, o);
    forall i | 0 <= i < |t| - 1 ensures Allowed(t[i].status, t[i + 1].status) && t[i].progress <= t[i + 1].progress {
      TraceStep(o, i);
    }
  }

  /** One step of the trace of a new job. */
  lemma TraceStep(o: SeoAnalyzer.Outcome, i: nat)
    requires o.reported <= |SeoAnalyzer.Progress|
    requires i < o.reported + 2
    ensures var t := Trace(NewJob, o);
      Allowed(t[i].status, t[i + 1].status) && t[i].progress <= t[i + 1].progress
  {
    var t := Trace(NewJob, o);
    var b := Began(NewJob);
    if i == o.reported + 1 {
      var steps := SeoAnalyzer.Progress[..o.reported];
      assert t[i] == AfterReports(b, steps) by {
        if o.reported > 0 {
          assert t[i] == Reported(b, SeoAnalyzer.Progress[o.reported - 1]);
        }
      }
      assert t[i + 1] == Processed(NewJob, o);
    } else if i >= 1 {
      assert t[i + 1] == Reported(b, SeoAnalyzer.Progress[i - 1]);
      if i >= 2 {
        assert t[i] == Reported(b, SeoAnalyzer.Progress[i - 2]);
      }
    }
  }

  /**
   * What a processed job shows: completed with progress 100 and the serialized
   * report exactly when the analysis succeeded; otherwise failed with a
   * non-empty error and the progress of the last step it reached.
   */
  lemma ProcessedJob(v: JobView, o: SeoAnalyzer.Outcome)
    requires 1 <= o.reported <= |SeoAnalyzer.Progress|
    ensures var w := Processed(v, o);
      && (w.status == Completed <==> o.result.Ok?)
      && (w.status == Failed <==> o.result.Err?)
      && (o.result.Ok? ==>
            w.progress == 100 && w.progressMessage == CompleteMessage
            && w.result == Some(SerializeReport(o.result.value)) && w.error == v.error)
      && (o.result.Err? ==>
            w.progress == SeoAnalyzer.Progress[o.reported - 1].percent
            && w.progressMessage == SeoAnalyzer.Progress[o.reported - 1].step
            && w.error.Some? && w.error.value != "" && w.result == v.result)
  {
    assert SeoAnalyzer.Progress[..o.reported][o.reported - 1] == SeoAnalyzer.Progress[o.reported - 1];
  }

  /** A record in the job store, updated in place by the background analysis. */
  class Job {
    var status: JobStatus
    var progress: int
    var progressMessage: string
    var result: Option<SerializedReport>
    var error: Option<string>
    const createdAt: int

    function View(): JobView
      reads this
    {
      JobView(status, progress, progressMessage, result, error)
    }

    /** A pending job at 0% with the starting message. */
    constructor (createdAt: int)
      ensures View() == NewJob && this.createdAt == createdAt
    {
      status := Pending;
      progress := 0;
      progressMessage := "Starting analysis...";
      result := None;
      error := None;
      this.createdAt := createdAt;
    }

    method Begin()
      modifies this
      ensures View() == Began(old(View()))
    {
      status := Processing;
    }

    /** The progress callback: the step's message and percentage. */
    method Report(step: SeoAnalyzer.ProgressStep)
      modifies this
      ensures View() == Reported(old(View()), step)
    {
      progressMessage := step.step;
      progress := step.percent;
    }

    /** The progress callback, called once per step in order; `views` records what the job shows after each call. */
    method ReportAll(steps: seq<SeoAnalyzer.ProgressStep>) returns (ghost views: seq<JobView>)
      modifies this
      ensures View() == AfterReports(old(View()), steps)
      ensures views == Reports(old(View()), steps)
    {
      var i := 0;
      views := [];
      while i < |steps|
        invariant 0 <= i <= |steps|
        invariant View() == AfterReports(old(View()), steps[..i])
        invariant views == Reports(old(View()), steps[..i])
      {
        Report(steps[i]);
        views := views + [View()];
        assert steps[..i + 1][i] == steps[i];
        assert steps[..i + 1][..i] == steps[..i];
        i := i + 1;
      }
      assert steps[..i] == steps;
    }

    method Complete(report: SerializedReport)
      modifies this
      ensures View() == Finished(old(View()), report)
    {
      status := Completed;
      progress := 100;
      progressMessage := CompleteMessage;
      result := Some(report);
    }

    method Fail(message: string)
      modifies this
      ensures View() == Failure(old(View()), message)
    {
      status := Failed;
      error := Some(MessageOr(message, "Analysis failed"));
    }
  }

  /** `analysisJobs`: job id → job record. */
  class JobStore {
    var jobs: map<string, Job>

    constructor ()
      ensures jobs == map[]
    {
      jobs := map[];
    }

    /** The job under `id`, as the routes see it. */
    function ViewOf(id: string): (v: Option<JobView>)
      reads this, jobs.Values
      ensures v.Some? <==> id in jobs
    {
      if id in jobs then Some(jobs[id].View()) else None
    }

    /**
     * POST /start: a rejected body leaves the store alone; an accepted one
     * stores a new pending job under the fresh id and hands the analysis
     * request on to `processAnalysis`.
     */
    method Start(body: StartBody, id: string, createdAt: int) returns (response: Response, accepted: Option<SeoAnalyzer.AnalysisRequest>)
      modifies this
      ensures response == StartReply(body, id)
      ensures ValidateStart(body).Err? ==> accepted.None? && jobs == old(jobs)
      ensures ValidateStart(body).Ok? ==>
        && accepted == Some(ValidateStart(body).value)
        && jobs.Keys == old(jobs).Keys + {id}
        && fresh(jobs[id]) && jobs[id].View() == NewJob && jobs[id].createdAt == createdAt
        && forall other :: other in old(jobs) && other != id ==> jobs[other] == old(jobs)[other]
    {
      var validated := ValidateStart(body);
      if validated.Err? {
        response := Response(400, ErrorBody(validated.message));
        accepted := None;
        return;
      }
      var job := new Job(createdAt);
      jobs := jobs[id := job];
      response := Response(200, Started(id, "pending", "Analysis started"));
      accepted := Some(validated.value);
    }

    /**
     * `processAnalysis`: marks the job processing, runs the analysis with a
     * progress callback that updates the job, and ends it completed with the
     * serialized report or failed with the error. An unknown id does nothing.
     */
    method ProcessAnalysis(
      id: string, request: SeoAnalyzer.AnalysisRequest,
      places: SeoAnalyzer.PlacesApi, seo: SeoAnalyzer.SeoApi, reportId: string, reportCreatedAt: int)
      returns (ghost views: seq<JobView>)
      modifies if id in jobs then {jobs[id]} else {}
      ensures id in jobs ==>
        jobs[id].View() == Processed(old(jobs[id].View()), SeoAnalyzer.Analysis(request, places, seo, reportId, reportCreatedAt))
      ensures id in jobs ==>
        views == Trace(old(jobs[id].View()), SeoAnalyzer.Analysis(request, places, seo, reportId, reportCreatedAt))
      ensures id !in jobs ==> views == []
    {
      views := [];
      if id !in jobs {
        return;
      }
      var job := jobs[id];
      ghost var start := job.View();
      ghost var o := SeoAnalyzer.Analysis(request, places, seo, reportId, reportCreatedAt);
      job.Begin();
      ghost var began := job.View();
      var r, log := SeoAnalyzer.Analyze(request, places, seo, reportId, reportCreatedAt);
      ghost var reported := job.ReportAll(log);
      assert reported == Reports(Began(start), SeoAnalyzer.Progress[..o.reported]);
      if r.Ok? {
        job.Complete(SerializeReport(r.value));
      } else {
        job.Fail(r.message);
      }
      views := [start, began] + reported + [job.View()];
      TraceOfReports(start, o, views);
    }
  }

  /** The reports of the steps an analysis reached are the middle of its trace. */
  lemma TraceOfReports(v: JobView, o: SeoAnalyzer.Outcome, t: seq<JobView>)
    requires o.reported <= |SeoAnalyzer.Progress|
    requires t == [v, Began(v)] + Reports(Began(v), SeoAnalyzer.Progress[..o.reported]) + [Processed(v, o)]
    ensures t == Trace(v, o)
  {
    var steps := SeoAnalyzer.Progress[..o.reported];
    forall i | 0 <= i < o.reported ensures Reports(Began(v), steps)[i] == Reported(Began(v), SeoAnalyzer.Progress[i]) {
      ReportsAt(Began(v), steps, i);
    }
  }

  lemma {:induction false} ReportsAt(v: JobView, steps: seq<SeoAnalyzer.ProgressStep>, i: nat)
    requires i < |steps|
    ensures Reports(v, steps)[i] == Reported(v, steps[i])
    decreases |steps|
  {
    if i < |steps| - 1 {
      ReportsAt(v, steps[..|steps| - 1], i);
    }
  }

  // ---------------------------------------------------------------------------
  // GET /:jobId/status and GET /:jobId/report
  // ---------------------------------------------------------------------------

  /** The status reply: 404 for an unknown job, otherwise its status and progress. */
  function StatusReply(jobId: string, job: Option<JobView>): (r: Response)
    ensures r.code == 404 <==> job.None?
    ensures job.None? ==> r.body == ErrorBody(JobNotFound)
    ensures job.Some? ==>
      r.code == 200 && r.body.StatusBody? && r.body.jobId == jobId
      && r.body.status == StatusName(job.value.status)
      && r.body.progress == job.value.progress && r.body.progressMessage == job.value.progressMessage
  {
    match job
    case None => Response(404, ErrorBody(JobNotFound))
    case Some(v) => Response(200, StatusBody(jobId, StatusName(v.status), v.progress, v.progressMessage))
  }

  /** The report reply: 404, 500 with the error, 202 while running, or the stored report. */
  function ReportReply(job: Option<JobView>): (r: Response)
    ensures r.code == 404 <==> job.None?
    ensures r.code == 500 <==> job.Some? && job.value.status == Failed
    ensures r.code == 202 <==> job.Some? && (job.value.status == Pending || job.value.status == Processing)
    ensures r.code == 200 <==> job.Some? && job.value.status == Completed
    ensures r.code == 404 ==> r.body == ErrorBody(JobNotFound)
    ensures r.code == 500 ==> r.body.ErrorBody? && r.body.error != ""
    ensures r.code == 500 && job.value.error.Some? && job.value.error.value != "" ==> r.body == ErrorBody(job.value.error.value)
    ensures r.code == 202 ==> r.body == InProgress("Analysis still in progress", StatusName(job.value.status), job.value.progress)
    ensures r.code == 200 ==> r.body == ReportBody(job.value.result)
  {
    match job
    case None => Response(404, ErrorBody(JobNotFound))
    case Some(v) =>
      if v.status == Failed then Response(500, ErrorBody(MessageOr(v.error.GetOr(""), "Analysis failed")))
      else if v.status != Completed then Response(202, InProgress("Analysis still in progress", StatusName(v.status), v.progress))
      else Response(200, ReportBody(v.result))
  }

  /**
   * Once `processAnalysis` has run on a new job, the report route answers 200
   * with the serialized report exactly when the analysis succeeded, and 500
   * with its error otherwise.
   */
  lemma ReportAfterProcessing(
    request: SeoAnalyzer.AnalysisRequest, places: SeoAnalyzer.PlacesApi, seo: SeoAnalyzer.SeoApi, reportId: string, createdAt: int)
    ensures var o := SeoAnalyzer.Analysis(request, places, seo, reportId, createdAt);
      var r := ReportReply(Some(Processed(NewJob, o)));
      && (r.code == 200 <==> o.result.Ok?)
      && (r.code == 500 <==> o.result.Err?)
      && (o.result.Ok? ==> r.body == ReportBody(Some(SerializeReport(o.result.value))))
      && (o.result.Err? ==> r.body == ErrorBody(MessageOr(o.result.message, "Analysis failed")))
  {
    var o := SeoAnalyzer.Analysis(request, places, seo, reportId, createdAt);
    ProcessedJob(NewJob, o);
  }

  // ---------------------------------------------------------------------------
  // POST /discover-competitors
  // ---------------------------------------------------------------------------

  function Preview(c: GooglePlaces.Competitor): (p: CompetitorPreview)
    ensures p.domain.Some? <==> Truthy(c.website)
    ensures p.domain.Some? ==> p.domain.value == GooglePlaces.ExtractDomain(c.website.value)
    ensures p.name == c.name && p.address == c.address && p.website == c.website
  {
    CompetitorPreview(c.name, c.address, c.website,
      if Truthy(c.website) then Some(GooglePlaces.ExtractDomain(c.website.value)) else None,
      c.rating, c.reviewCount)
  }

  /**
   * `/discover-competitors`: 400 without an address; otherwise geocode it and
   * list up to ten competitors around it, each with its domain, or 500 with
   * the first error.
   */
  function DiscoverReply(address: Option<string>, places: SeoAnalyzer.PlacesApi): (r: Response)
    ensures !Truthy(address) ==> r == Response(400, ErrorBody(AddressRequired))
    ensures Truthy(address) && places.apiKey == "" ==> r == Response(500, ErrorBody(GooglePlaces.KeyMissing))
    ensures Truthy(address) && GooglePlaces.GeocodeAddress(places.apiKey, address.value, places.geocoder).Err? ==>
      r == Response(500, ErrorBody(MessageOr(GooglePlaces.GeocodeAddress(places.apiKey, address.value, places.geocoder).message,
                                             "Failed to discover competitors")))
    ensures Truthy(address) && GooglePlaces.GeocodeAddress(places.apiKey, address.value, places.geocoder).Ok? ==>
      var at := GooglePlaces.GeocodeAddress(places.apiKey, address.value, places.geocoder).value;
      var found := GooglePlaces.DentalCompetitors(places.apiKey, SeoAnalyzer.NearbyAround(places, at), places.details, GooglePlaces.DefaultLimit);
      && (found.Err? ==> r == Response(500, ErrorBody(MessageOr(found.message, "Failed to discover competitors"))))
      && (found.Ok? ==>
            && r.code == 200 && r.body.Discovered? && r.body.location == at
            && |r.body.competitors| == |found.value|
            && forall i :: 0 <= i < |found.value| ==> r.body.competitors[i] == Preview(found.value[i]))
    ensures r.code == 200 ==>
      && r.body.Discovered?
      && |r.body.competitors| <= GooglePlaces.DefaultLimit
      && forall i :: 0 <= i < |r.body.competitors| ==> r.body.competitors[i].domain.Some?
    ensures r.code == 400 || r.code == 500 || r.code == 200
  {
    if !Truthy(address) then Response(400, ErrorBody(AddressRequired))
    else
      match GooglePlaces.GeocodeAddress(places.apiKey, address.value, places.geocoder)
      case Err(e) => Response(500, ErrorBody(MessageOr(e, "Failed to discover competitors")))
      case Ok(at) =>
        match GooglePlaces.DentalCompetitors(places.apiKey, SeoAnalyzer.NearbyAround(places, at), places.details, GooglePlaces.DefaultLimit)
        case Err(e) => Response(500, ErrorBody(MessageOr(e, "Failed to discover competitors")))
        case Ok(cs) =>
          Response(200, Discovered(at, seq(|cs|, i requires 0 <= i < |cs| => Preview(cs[i]))))
  }

  // ---------------------------------------------------------------------------
  // POST /validate-urls
  // ---------------------------------------------------------------------------

  /** A string always yields a domain; any other value makes `extractDomain` throw and is reported invalid. */
  function CheckUrl(item: JsonValue): (c: UrlCheck)
    ensures c.original == item
    ensures c.valid <==> item.JsonString?
    ensures c.valid ==> c.domain == Some(GooglePlaces.ExtractDomain(item.s)) && '/' !in c.domain.value && c.error.None?
    ensures !c.valid ==> c.domain.None? && c.error == Some(InvalidUrl)
  {
    match item
    case JsonString(s) => UrlCheck(item, Some(GooglePlaces.ExtractDomain(s)), true, None)
    case OtherJson => UrlCheck(item, None, false, Some(InvalidUrl))
  }

  /** `/validate-urls`: 400 unless `urls` is an array; otherwise one check per entry, in order. */
  function ValidateUrlsReply(urls: ArrayField<JsonValue>): (r: Response)
    ensures r.code == 400 <==> urls.NotArray?
    ensures urls.NotArray? ==> r.body == ErrorBody(UrlsRequired)
    ensures urls.Array? ==>
      r.code == 200 && r.body.UrlsBody? && |r.body.urls| == |urls.items|
      && forall i :: 0 <= i < |urls.items| ==> r.body.urls[i] == CheckUrl(urls.items[i])
  {
    match urls
    case NotArray => Response(400, ErrorBody(UrlsRequired))
    case Array(items) => Response(200, UrlsBody(seq(|items|, i requires 0 <= i < |items| => CheckUrl(items[i]))))
  }

  /** A list of strings is valid throughout, each entry keyed by its domain. */
  lemma StringUrlsAllValid(urls: seq<string>)
    ensures var r := ValidateUrlsReply(Array(seq(|urls|, i requires 0 <= i < |urls| => JsonString(urls[i]))));
      r.code == 200 && |r.body.urls| == |urls|
      && forall i :: 0 <= i < |urls| ==>
           r.body.urls[i].valid && r.body.urls[i].domain == Some(GooglePlaces.ExtractDomain(urls[i]))
  {
  }
}

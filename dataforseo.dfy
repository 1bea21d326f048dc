/**
 * The ranking / backlink / on-page client of the TypeScript backend
 * (backend/src/services/dataforseo.ts): how the provider's task list becomes
 * results. A single-item call throws on a task whose status is not 20000; a
 * batch call turns such a task into an empty or zero placeholder at its
 * position and carries on.
 *
 * A provider reply is an input value: the `tasks` list of the response body,
 * each task with its status and its `result` list.
 */
module DataForSeo {
  import opened Wrappers
  import opened Text

  /** The status code of a task that succeeded. */
  const TaskOk: int := 20000

  const CredentialsMissing: string := "DataForSEO credentials not configured"

  /** What reading `.map` off a missing `tasks` list throws. */
  const TasksMissing: string := "Cannot read properties of undefined (reading 'map')"

  /** `s || fallback` for an optional string. */
  function OrElse(s: Option<string>, fallback: string): (r: string)
    ensures Truthy(s) ==> r == s.value
    ensures !Truthy(s) ==> r == fallback
  {
    if Truthy(s) then s.value else fallback
  }

  /** `s?.[0]`: the first element of an optional list. */
  function First<T>(s: Option<seq<T>>): (r: Option<T>)
    ensures r.Some? <==> s.Some? && |s.value| > 0
    ensures r.Some? ==> r.value == s.value[0]
  {
    if s.Some? && |s.value| > 0 then Some(s.value[0]) else None
  }

  /** `s[i]`, which is `undefined` past the end. */
  function At<T>(s: seq<T>, i: nat): (r: Option<T>)
    ensures r.Some? <==> i < |s|
    ensures i < |s| ==> r.value == s[i]
  {
    if i < |s| then Some(s[i]) else None
  }

  // ---------------------------------------------------------------------------
  // Client construction
  // ---------------------------------------------------------------------------

  /** The credentials the client authenticates with. */
  datatype Client = Client(login: string, password: string)

  /** The constructor: both credentials must be present and non-empty. */
  function NewClient(login: Option<string>, password: Option<string>): (r: Result<Client>)
    ensures r.Ok? <==> Truthy(login) && Truthy(password)
    ensures r.Err? ==> r.message == CredentialsMissing
    ensures r.Ok? ==> r.value == Client(login.value, password.value)
  {
    if !Truthy(login) || !Truthy(password) then Err(CredentialsMissing)
    else Ok(Client(login.value, password.value))
  }

  // ---------------------------------------------------------------------------
  // Provider replies
  // ---------------------------------------------------------------------------

  /** One task of a reply: status code, status message and the `result` list. */
  datatype Task<R> = Task(statusCode: Option<int>, statusMessage: Option<string>, result: Option<seq<R>>)

  /** A reply body: its `tasks` list, which may be missing. */
  datatype Reply<R> = Reply(tasks: Option<seq<Task<R>>>)

  predicate Succeeded<R>(task: Task<R>) {
    task.statusCode == Some(TaskOk)
  }

  /** `task?.status_code !== 20000` for the first task of a reply. */
  predicate FirstTaskFailed<R>(reply: Reply<R>) {
    var task := First(reply.tasks);
    task.None? || !Succeeded(task.value)
  }

  /** The message a single-item call throws: its prefix and `task?.status_message || 'Unknown error'`. */
  function TaskError<R>(prefix: string, task: Option<Task<R>>): (m: string)
    ensures task.Some? && Truthy(task.value.statusMessage) ==> m == prefix + task.value.statusMessage.value
    ensures !(task.Some? && Truthy(task.value.statusMessage)) ==> m == prefix + "Unknown error"
  {
    prefix + OrElse(if task.Some? then task.value.statusMessage else None, "Unknown error")
  }

  // ---------------------------------------------------------------------------
  // Keyword rankings
  // ---------------------------------------------------------------------------

  /** One search-result item: its type and the fields a ranking keeps. */
  datatype SerpItem = SerpItem(itemType: string, rankAbsolute: int, domain: string, url: string, title: string)

  /** One entry of a ranking task's `result` list. */
  datatype SerpBlock = SerpBlock(items: Option<seq<SerpItem>>)

  datatype RankingItem = RankingItem(position: int, domain: string, url: string, title: string)

  /** A keyword's rankings; the keyword is `undefined` for a batch task past the end of the keyword list. */
  datatype SerpResult = SerpResult(keyword: Option<string>, rankings: seq<RankingItem>)

  predicate IsOrganic(item: SerpItem) {
    item.itemType == "organic"
  }

  function ToRanking(item: SerpItem): RankingItem {
    RankingItem(item.rankAbsolute, item.domain, item.url, item.title)
  }

  /** The organic items of a task, as rankings, in provider order. */
  function OrganicRankings(items: seq<SerpItem>): (r: seq<RankingItem>)
    ensures |r| <= |items|
  {
    if items == [] then []
    else (if IsOrganic(items[0]) then [ToRanking(items[0])] else []) + OrganicRankings(items[1..])
  }

  /** Every ranking comes from an organic item. */
  lemma {:induction false} OrganicRankingsOrigin(items: seq<SerpItem>, x: RankingItem)
    requires x in OrganicRankings(items)
    ensures exists item :: item in items && IsOrganic(item) && x == ToRanking(item)
    decreases |items|
  {
    if !(IsOrganic(items[0]) && x == ToRanking(items[0])) {
      OrganicRankingsOrigin(items[1..], x);
      var item :| item in items[1..] && IsOrganic(item) && x == ToRanking(item);
      assert item in items;
    }
  }

  /** Provider order is kept: the rankings of a concatenation are the concatenated rankings. */
  lemma {:induction false} OrganicRankingsAppend(a: seq<SerpItem>, b: seq<SerpItem>)
    ensures OrganicRankings(a + b) == OrganicRankings(a) + OrganicRankings(b)
    decreases |a|
  {
    if a == [] {
      assert a + b == b;
    } else {
      assert (a + b)[0] == a[0] && (a + b)[1..] == a[1..] + b;
      OrganicRankingsAppend(a[1..], b);
      var head := if IsOrganic(a[0]) then [ToRanking(a[0])] else [];
      calc {
        OrganicRankings(a + b);
        head + OrganicRankings(a[1..] + b);
        head + (OrganicRankings(a[1..]) + OrganicRankings(b));
        (head + OrganicRankings(a[1..])) + OrganicRankings(b);
      }
    }
  }

  /** Every organic item yields a ranking. */
  lemma {:induction false} OrganicRankingsKeep(items: seq<SerpItem>, item: SerpItem)
    requires item in items && IsOrganic(item)
    ensures ToRanking(item) in OrganicRankings(items)
    decreases |items|
  {
    if items[0] != item {
      assert item in items[1..];
      OrganicRankingsKeep(items[1..], item);
    }
  }

  /** `task.result?.[0]?.items || []`. */
  function SerpItemsOf(task: Task<SerpBlock>): seq<SerpItem> {
    match First(task.result)
    case None => []
    case Some(block) => block.items.GetOr([])
  }

  /** `getKeywordRankings`: throws on a failed first task, otherwise the organic rankings. */
  function GetKeywordRankings(keyword: string, reply: Reply<SerpBlock>): (r: Result<SerpResult>)
    ensures r.Err? <==> FirstTaskFailed(reply)
    ensures r.Err? ==> r.message == TaskError("SERP API error: ", First(reply.tasks))
    ensures r.Ok? ==> r.value == SerpResult(Some(keyword), OrganicRankings(SerpItemsOf(First(reply.tasks).value)))
  {
    var task := First(reply.tasks);
    if task.None? || !Succeeded(task.value) then Err(TaskError("SERP API error: ", task))
    else Ok(SerpResult(Some(keyword), OrganicRankings(SerpItemsOf(task.value))))
  }

  /** The result a batch builds for the task at position `i`. */
  function SerpTaskResult(keywords: seq<string>, i: nat, task: Task<SerpBlock>): SerpResult {
    if !Succeeded(task) then SerpResult(At(keywords, i), [])
    else SerpResult(At(keywords, i), OrganicRankings(SerpItemsOf(task)))
  }

  /**
   * `getMultipleKeywordRankings`: one result per returned task, in task order,
   * labelled with the keyword at the same position; a failed task gives no
   * rankings instead of failing the batch. Only a missing task list throws.
   */
  function GetMultipleKeywordRankings(keywords: seq<string>, reply: Reply<SerpBlock>): (r: Result<seq<SerpResult>>)
    ensures r.Err? <==> reply.tasks.None?
    ensures r.Err? ==> r.message == TasksMissing
    ensures r.Ok? ==> |r.value| == |reply.tasks.value|
    ensures r.Ok? ==> forall i :: 0 <= i < |r.value| ==>
      r.value[i].keyword == At(keywords, i)
      && (!Succeeded(reply.tasks.value[i]) ==> r.value[i].rankings == [])
  {
    match reply.tasks
    case None => Err(TasksMissing)
    case Some(tasks) => Ok(seq(|tasks|, i requires 0 <= i < |tasks| => SerpTaskResult(keywords, i, tasks[i])))
  }

  /**
   * A task that succeeded gives in the batch exactly what the single-keyword call
   * gives for a reply made of that task alone.
   */
  lemma BatchRankingsAgreeWithSingle(keywords: seq<string>, reply: Reply<SerpBlock>, i: nat)
    requires reply.tasks.Some? && i < |reply.tasks.value| && i < |keywords|
    requires Succeeded(reply.tasks.value[i])
    ensures GetMultipleKeywordRankings(keywords, reply).value[i]
            == GetKeywordRankings(keywords[i], Reply(Some([reply.tasks.value[i]]))).value
  {
  }

  /** A task that failed throws in the single-keyword call but leaves an empty placeholder in the batch. */
  lemma BatchRankingsDegrade(keywords: seq<string>, reply: Reply<SerpBlock>, i: nat)
    requires reply.tasks.Some? && i < |reply.tasks.value| && i < |keywords|
    requires !Succeeded(reply.tasks.value[i])
    ensures GetKeywordRankings(keywords[i], Reply(Some([reply.tasks.value[i]]))).Err?
    ensures GetMultipleKeywordRankings(keywords, reply).value[i] == SerpResult(Some(keywords[i]), [])
  {
  }

  // ---------------------------------------------------------------------------
  // Backlinks
  // ---------------------------------------------------------------------------

  /** One backlinks summary as the provider sends it; every field may be missing. */
  datatype BacklinksSummary = BacklinksSummary(
    target: Option<string>,
    rank: Option<int>,
    backlinks: Option<int>,
    referringDomains: Option<int>,
    referringIps: Option<int>)

  /** A domain's backlink figures; the domain is `undefined` where the source reads past the end of a list. */
  datatype BacklinksResult = BacklinksResult(
    domain: Option<string>,
    rank: int,
    backlinks: int,
    referringDomains: int,
    referringIps: int)

  /** The all-zero figures for a domain. */
  function ZeroBacklinks(domain: Option<string>): (r: BacklinksResult)
    ensures r.domain == domain && r.rank == 0 && r.backlinks == 0 && r.referringDomains == 0 && r.referringIps == 0
  {
    BacklinksResult(domain, 0, 0, 0, 0)
  }

  /**
   * `getBacklinksSummary`: throws on a failed first task; without a result the
   * figures are all zero for the requested domain; otherwise each missing
   * figure is 0 and the domain is the result's target.
   */
  function GetBacklinksSummary(domain: string, reply: Reply<BacklinksSummary>): (r: Result<BacklinksResult>)
    ensures r.Err? <==> FirstTaskFailed(reply)
    ensures r.Err? ==> r.message == TaskError("Backlinks API error: ", First(reply.tasks))
    ensures r.Ok? && First(First(reply.tasks).value.result).None? ==> r.value == ZeroBacklinks(Some(domain))
    ensures r.Ok? && First(First(reply.tasks).value.result).Some? ==>
      var s := First(First(reply.tasks).value.result).value;
      r.value.domain == s.target && r.value.rank == s.rank.GetOr(0) && r.value.backlinks == s.backlinks.GetOr(0)
      && r.value.referringDomains == s.referringDomains.GetOr(0) && r.value.referringIps == s.referringIps.GetOr(0)
  {
    var task := First(reply.tasks);
    if task.None? || !Succeeded(task.value) then Err(TaskError("Backlinks API error: ", task))
    else
      match First(task.value.result)
      case None => Ok(ZeroBacklinks(Some(domain)))
      case Some(s) =>
        Ok(BacklinksResult(s.target, s.rank.GetOr(0), s.backlinks.GetOr(0), s.referringDomains.GetOr(0), s.referringIps.GetOr(0)))
  }

  /** The result a batch builds for the task at position `i`. */
  function BacklinksTaskResult(domains: seq<string>, i: nat, task: Task<BacklinksSummary>): BacklinksResult {
    if !Succeeded(task) then ZeroBacklinks(At(domains, i))
    else
      match First(task.result)
      case None => ZeroBacklinks(At(domains, i))
      case Some(s) =>
        BacklinksResult(
          if Truthy(s.target) then s.target else At(domains, i),
          s.rank.GetOr(0), s.backlinks.GetOr(0), s.referringDomains.GetOr(0), s.referringIps.GetOr(0))
  }

  /**
   * `getMultipleBacklinks`: one result per returned task, in task order; a failed
   * task gives zeros for the domain at its position, and so does a task without
   * a result. Only a missing task list throws.
   */
  function GetMultipleBacklinks(domains: seq<string>, reply: Reply<BacklinksSummary>): (r: Result<seq<BacklinksResult>>)
    ensures r.Err? <==> reply.tasks.None?
    ensures r.Err? ==> r.message == TasksMissing
    ensures r.Ok? ==> |r.value| == |reply.tasks.value|
    ensures r.Ok? ==> forall i :: 0 <= i < |r.value| ==>
      var task := reply.tasks.value[i];
      (!Succeeded(task) || First(task.result).None? ==> r.value[i] == ZeroBacklinks(At(domains, i)))
  {
    match reply.tasks
    case None => Err(TasksMissing)
    case Some(tasks) => Ok(seq(|tasks|, i requires 0 <= i < |tasks| => BacklinksTaskResult(domains, i, tasks[i])))
  }

  /**
   * A task that succeeded gives in the batch what the single-domain call gives
   * for a reply made of that task alone, except that a missing or empty target
   * falls back to the requested domain in the batch only.
   */
  lemma BatchBacklinksAgreeWithSingle(domains: seq<string>, reply: Reply<BacklinksSummary>, i: nat)
    requires reply.tasks.Some? && i < |reply.tasks.value| && i < |domains|
    requires Succeeded(reply.tasks.value[i])
    ensures var task := reply.tasks.value[i];
            var batch := GetMultipleBacklinks(domains, reply).value[i];
            var single := GetBacklinksSummary(domains[i], Reply(Some([task]))).value;
            && batch.rank == single.rank && batch.backlinks == single.backlinks
            && batch.referringDomains == single.referringDomains && batch.referringIps == single.referringIps
            && (First(task.result).None? || Truthy(First(task.result).value.target) ==> batch == single)
            && (First(task.result).Some? && !Truthy(First(task.result).value.target) ==>
                  batch.domain == Some(domains[i]) && single.domain == First(task.result).value.target)
  {
  }

  /** A task that failed throws in the single-domain call but leaves zeros for its domain in the batch. */
  lemma BatchBacklinksDegrade(domains: seq<string>, reply: Reply<BacklinksSummary>, i: nat)
    requires reply.tasks.Some? && i < |reply.tasks.value| && i < |domains|
    requires !Succeeded(reply.tasks.value[i])
    ensures GetBacklinksSummary(domains[i], Reply(Some([reply.tasks.value[i]]))).Err?
    ensures GetMultipleBacklinks(domains, reply).value[i] == ZeroBacklinks(Some(domains[i]))
  {
  }

  // ---------------------------------------------------------------------------
  // On-page analysis
  // ---------------------------------------------------------------------------

  datatype OnPageMeta = OnPageMeta(title: Option<string>, description: Option<string>)

  datatype PageTiming = PageTiming(timeToInteractive: Option<real>)

  /** One on-page item as the provider sends it; every field may be missing. */
  datatype OnPageItem = OnPageItem(
    url: Option<string>,
    statusCode: Option<int>,
    onpageScore: Option<real>,
    meta: Option<OnPageMeta>,
    checks: Option<map<string, bool>>,
    pageTiming: Option<PageTiming>,
    size: Option<int>)

  /** One entry of an on-page task's `result` list. */
  datatype OnPageBlock = OnPageBlock(items: Option<seq<OnPageItem>>)

  /** A page's on-page figures; url and status code are `undefined` where the source leaves them so. */
  datatype OnPageResult = OnPageResult(
    url: Option<string>,
    statusCode: Option<int>,
    onpageScore: real,
    title: string,
    description: string,
    checks: map<string, bool>,
    loadTime: real,
    contentSize: int)

  /** `task.result?.[0]?.items?.[0]`. */
  function OnPageItemOf(task: Task<OnPageBlock>): Option<OnPageItem> {
    match First(task.result)
    case None => None
    case Some(block) => First(block.items)
  }

  /** `item.meta?.title || ''`. */
  function MetaTitle(item: OnPageItem): string {
    if item.meta.Some? then OrElse(item.meta.value.title, "") else ""
  }

  /** `item.meta?.description || ''`. */
  function MetaDescription(item: OnPageItem): string {
    if item.meta.Some? then OrElse(item.meta.value.description, "") else ""
  }

  /** `item.page_timing?.time_to_interactive || 0`. */
  function LoadTime(item: OnPageItem): (t: real)
    ensures item.pageTiming.None? || item.pageTiming.value.timeToInteractive.None? ==> t == 0.0
  {
    if item.pageTiming.Some? then item.pageTiming.value.timeToInteractive.GetOr(0.0) else 0.0
  }

  /** The figures of an item, with the url and status code the caller settled on. */
  function ItemFigures(item: OnPageItem, url: Option<string>, statusCode: Option<int>): OnPageResult {
    OnPageResult(url, statusCode, item.onpageScore.GetOr(0.0), MetaTitle(item), MetaDescription(item),
                 item.checks.GetOr(map[]), LoadTime(item), item.size.GetOr(0))
  }

  /** The all-zero, empty figures for a page. */
  function EmptyOnPage(url: Option<string>): (r: OnPageResult)
    ensures r.url == url && r.statusCode == Some(0) && r.onpageScore == 0.0 && r.title == "" && r.description == ""
            && r.checks == map[] && r.loadTime == 0.0 && r.contentSize == 0
  {
    OnPageResult(url, Some(0), 0.0, "", "", map[], 0.0, 0)
  }

  /** `getOnPageAnalysis`: throws on a failed first task and when no item came back. */
  function GetOnPageAnalysis(url: string, reply: Reply<OnPageBlock>): (r: Result<OnPageResult>)
    ensures r.Err? <==> FirstTaskFailed(reply) || OnPageItemOf(First(reply.tasks).value).None?
    ensures FirstTaskFailed(reply) ==> r == Err(TaskError("OnPage API error: ", First(reply.tasks)))
    ensures !FirstTaskFailed(reply) && OnPageItemOf(First(reply.tasks).value).None? ==> r == Err("No OnPage data returned")
    ensures r.Ok? ==> var item := OnPageItemOf(First(reply.tasks).value).value;
      r.value.url == item.url && r.value.statusCode == item.statusCode
      && r.value.loadTime == LoadTime(item) && r.value.onpageScore == item.onpageScore.GetOr(0.0)
      && r.value.title == MetaTitle(item) && r.value.description == MetaDescription(item)
      && r.value.checks == item.checks.GetOr(map[]) && r.value.contentSize == item.size.GetOr(0)
  {
    var task := First(reply.tasks);
    if task.None? || !Succeeded(task.value) then Err(TaskError("OnPage API error: ", task))
    else
      match OnPageItemOf(task.value)
      case None => Err("No OnPage data returned")
      case Some(item) => Ok(ItemFigures(item, item.url, item.statusCode))
  }

  /** The result a batch builds for the task at position `i`. */
  function OnPageTaskResult(urls: seq<string>, i: nat, task: Task<OnPageBlock>): OnPageResult {
    if !Succeeded(task) then EmptyOnPage(At(urls, i))
    else
      match OnPageItemOf(task)
      case None => EmptyOnPage(At(urls, i))
      case Some(item) =>
        ItemFigures(item, if Truthy(item.url) then item.url else At(urls, i), Some(item.statusCode.GetOr(0)))
  }

  /**
   * `getMultipleOnPageAnalysis`: one result per returned task, in task order; a
   * failed task, and a task without an item, give the empty figures for the url
   * at its position. Only a missing task list throws.
   */
  function GetMultipleOnPageAnalysis(urls: seq<string>, reply: Reply<OnPageBlock>): (r: Result<seq<OnPageResult>>)
    ensures r.Err? <==> reply.tasks.None?
    ensures r.Err? ==> r.message == TasksMissing
    ensures r.Ok? ==> |r.value| == |reply.tasks.value|
    ensures r.Ok? ==> forall i :: 0 <= i < |r.value| ==>
      var task := reply.tasks.value[i];
      && (!Succeeded(task) || OnPageItemOf(task).None? ==> r.value[i] == EmptyOnPage(At(urls, i)))
      && r.value[i].statusCode.Some?
  {
    match reply.tasks
    case None => Err(TasksMissing)
    case Some(tasks) => Ok(seq(|tasks|, i requires 0 <= i < |tasks| => OnPageTaskResult(urls, i, tasks[i])))
  }

  /**
   * A task that succeeded with an item gives in the batch the figures the
   * single-page call gives, with a missing url and status code defaulted.
   */
  lemma BatchOnPageAgreeWithSingle(urls: seq<string>, reply: Reply<OnPageBlock>, i: nat)
    requires reply.tasks.Some? && i < |reply.tasks.value| && i < |urls|
    requires Succeeded(reply.tasks.value[i]) && OnPageItemOf(reply.tasks.value[i]).Some?
    ensures var task := reply.tasks.value[i];
            var item := OnPageItemOf(task).value;
            var batch := GetMultipleOnPageAnalysis(urls, reply).value[i];
            var single := GetOnPageAnalysis(urls[i], Reply(Some([task]))).value;
            && batch == single.(url := if Truthy(item.url) then item.url else Some(urls[i]),
                                statusCode := Some(item.statusCode.GetOr(0)))
  {
  }

  /** A failed task throws in the single-page call but leaves the empty figures in the batch. */
  lemma BatchOnPageDegrade(urls: seq<string>, reply: Reply<OnPageBlock>, i: nat)
    requires reply.tasks.Some? && i < |reply.tasks.value| && i < |urls|
    requires !Succeeded(reply.tasks.value[i])
    ensures GetOnPageAnalysis(urls[i], Reply(Some([reply.tasks.value[i]]))).Err?
    ensures GetMultipleOnPageAnalysis(urls, reply).value[i] == EmptyOnPage(Some(urls[i]))
  {
  }
}

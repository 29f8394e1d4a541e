/** The command-line side of the agent, main.py: the orchestrator object,
    the batch loop `run_batch_analysis` and the per-PR loop of `main`.

    The git client is the GitHub client of git_services.py, driven by the
    same `transport` as everywhere else. The analyser, the metadata lookup
    and the clock are collaborators given as functions: main.py calls them
    with signatures that the other modules do not offer. */
module Orchestration {
  import opened Wrappers
  import opened Text
  import opened GitServices
  import opened Analysis

  const StandardDepth := "standard"
  const ComprehensiveDepth := "comprehensive"
  const SecurityDepth := "security"
  const ComprehensiveExtension := "Perform deep architectural analysis and design pattern review."
  const SecurityExtension := "Focus on security vulnerabilities and data protection."
  const UnableMarker := "Unable to analyze"
  const FailedMarker := "Analysis failed"
  const FetchFailedError := "Could not fetch diff"
  const AnalysisFailedError := "Analysis failed"

  /** The configuration values main.py reads. */
  datatype Config = Config(
    gitServiceToken: Option<string>,
    geminiApiKey: Option<string>,
    repoOwner: Option<string>,
    repoName: Option<string>,
    prNumber: Option<string>,
    requestTimeout: int)

  /** What the orchestrator calls but this model does not define:
      `analyze(diff, extension)`, `get_pr_metadata(n)` and the time at
      which the report of PR `n` is generated. */
  datatype Collaborators = Collaborators(
    transport: HttpRequest -> TransportOutcome,
    analyze: (string, string) -> string,
    metadata: int -> Option<map<string, string>>,
    clock: int -> string)

  datatype Report = Report(
    timestamp: string,
    gitServer: string,
    repository: string,
    prNumber: int,
    analysis: string,
    metadata: map<string, string>)

  /** One entry of `run_batch_analysis`'s result list. */
  datatype BatchRecord =
    | Succeeded(prNumber: int, report: Report)
    | Failed(prNumber: int, error: string)

  /** One call of `post_review`, with the flag it returned. */
  datatype PostAttempt = PostAttempt(prNumber: int, comment: string, posted: bool)

  /** How the fetch-then-analyse steps end for one pull request. */
  datatype PrOutcome = FetchFailed | AnalysisRejected | Reviewed(analysis: string)

  /** Everything one loop over the PR numbers depends on: the server name,
      the configuration, the review depth, what the configured client's
      `get_pull_request_diff` and `post_review_comment` return for a PR,
      the analyser, where the report's metadata comes from, and the clock. */
  datatype Run = Run(
    gitServer: string,
    config: Config,
    depth: string,
    fetch: int -> Option<string>,
    analyze: (string, string) -> string,
    post: (int, string) -> bool,
    meta: int -> Option<map<string, string>>,
    clock: int -> string)

  /** `fetch_pr_diff` on the client's reply: a falsy diff (`None` or the
      empty text) becomes `None`, anything else is passed on unchanged. */
  function FetchPrDiff(fetched: Option<string>): (r: Option<string>)
  {
    if fetched.None? || fetched.value == [] then None else fetched
  }

  /** A missing diff and an empty one are both skipped; anything else
      passes through unchanged. */
  lemma FetchPrDiffCases(fetched: Option<string>)
    ensures FetchPrDiff(fetched).Some? <==> fetched.Some? && fetched.value != []
    ensures FetchPrDiff(fetched).Some? ==> FetchPrDiff(fetched) == fetched
  {
  }

  /** The sentence `analyze_changes` adds for a review depth. */
  function ReviewExtension(depth: string): (extension: string) {
    if depth == ComprehensiveDepth then ComprehensiveExtension
    else if depth == SecurityDepth then SecurityExtension
    else ""
  }

  /** Each depth selects its own sentence, and every other value selects
      none. */
  lemma ReviewExtensionCases(depth: string)
    ensures ReviewExtension(depth) == ComprehensiveExtension <==> depth == ComprehensiveDepth
    ensures ReviewExtension(depth) == SecurityExtension <==> depth == SecurityDepth
    ensures ReviewExtension(depth) == "" <==> depth != ComprehensiveDepth && depth != SecurityDepth
  {
  }

  /** The case-sensitive substring test of `analyze_changes`. */
  predicate ReportsFailure(result: string) {
    Contains(result, UnableMarker) || Contains(result, FailedMarker)
  }

  /** `analyze_changes`: the analyser's answer, unless it reports a
      failure. */
  function AnalyzeChanges(diffText: string, depth: string, analyze: (string, string) -> string): (r: Option<string>)
  {
    var result := analyze(diffText, ReviewExtension(depth));
    if ReportsFailure(result) then None else Some(result)
  }

  /** The analysis is rejected exactly when the answer contains one of the
      two failure markers, case-sensitively, at some index. */
  lemma AnalyzeChangesRejects(diffText: string, depth: string, analyze: (string, string) -> string)
    ensures var result := analyze(diffText, ReviewExtension(depth));
            AnalyzeChanges(diffText, depth, analyze).None?
            <==> (exists i :: OccursAt(result, UnableMarker, i)) || (exists i :: OccursAt(result, FailedMarker, i))
    ensures AnalyzeChanges(diffText, depth, analyze).Some? ==>
              AnalyzeChanges(diffText, depth, analyze).value == analyze(diffText, ReviewExtension(depth))
  {
    var result := analyze(diffText, ReviewExtension(depth));
    ContainsIff(result, UnableMarker);
    ContainsIff(result, FailedMarker);
  }

  /** `generate_report`; `metadata or {}` gives the empty map for `None`
      (and an empty map stays empty). */
  function GenerateReport(gitServer: string, config: Config, prNumber: int, analysis: string,
                          metadata: Option<map<string, string>>, timestamp: string): (r: Report)
  {
    Report(timestamp, gitServer, Rendered(config.repoOwner) + "/" + Rendered(config.repoName), prNumber, analysis,
           if metadata.Some? then metadata.value else map[])
  }

  /** The report's metadata is empty exactly when none, or an empty map,
      was found; otherwise it is the map found. */
  lemma ReportMetadata(gitServer: string, config: Config, prNumber: int, analysis: string,
                       metadata: Option<map<string, string>>, timestamp: string)
    ensures var r := GenerateReport(gitServer, config, prNumber, analysis, metadata, timestamp);
            && (r.metadata == map[] <==> metadata.None? || metadata.value == map[])
            && (r.metadata != map[] ==> metadata == Some(r.metadata))
  {
  }

  /** The request the orchestrator's client sends for PR `n`'s diff. */
  function DiffRequestFor(config: Config, prNumber: int): (r: HttpRequest) {
    DiffRequest(config.repoOwner, config.repoName, config.gitServiceToken, config.requestTimeout, prNumber)
  }

  /** The request the orchestrator's client sends to comment on PR `n`. */
  function CommentRequestFor(config: Config, prNumber: int, comment: string): (r: HttpRequest) {
    CommentRequest(config.repoOwner, config.repoName, config.gitServiceToken, config.requestTimeout, prNumber, comment)
  }

  /** A loop's run with the client configured from `config` and talking
      to `cols.transport`. */
  function RunOf(gitServer: string, config: Config, cols: Collaborators, depth: string,
                 meta: int -> Option<map<string, string>>): (r: Run) {
    Run(gitServer, config, depth,
        n => DiffOutcome(cols.transport(DiffRequestFor(config, n))),
        cols.analyze,
        (n, comment) => Delivered(cols.transport(CommentRequestFor(config, n, comment))),
        meta, cols.clock)
  }

  /** Fetch, then analyse; an empty analysis is falsy and counts as a
      failure in both loops. */
  function ProcessPr(run: Run, prNumber: int): (r: PrOutcome)
  {
    match FetchPrDiff(run.fetch(prNumber))
    case None => FetchFailed
    case Some(diff) =>
      match AnalyzeChanges(diff, run.depth, run.analyze)
      case None => AnalysisRejected
      case Some(analysis) => if analysis == [] then AnalysisRejected else Reviewed(analysis)
  }

  /** A PR is skipped as unfetched when its diff is missing or empty, and
      reviewed exactly when the analyser's answer to that diff is non-empty
      and free of failure markers; the review is that answer. */
  lemma ProcessPrCases(run: Run, prNumber: int)
    ensures ProcessPr(run, prNumber).FetchFailed? <==> run.fetch(prNumber).None? || run.fetch(prNumber).value == []
    ensures ProcessPr(run, prNumber).Reviewed? <==>
              && run.fetch(prNumber).Some? && run.fetch(prNumber).value != []
              && var answer := run.analyze(run.fetch(prNumber).value, ReviewExtension(run.depth));
                 answer != [] && !ReportsFailure(answer)
    ensures ProcessPr(run, prNumber).Reviewed? ==>
              ProcessPr(run, prNumber).analysis == run.analyze(run.fetch(prNumber).value, ReviewExtension(run.depth))
  {
  }

  /** The record `run_batch_analysis` appends for one pull request. */
  function BatchRecordOf(run: Run, prNumber: int): (r: BatchRecord) {
    match ProcessPr(run, prNumber)
    case FetchFailed => Failed(prNumber, FetchFailedError)
    case AnalysisRejected => Failed(prNumber, AnalysisFailedError)
    case Reviewed(analysis) =>
      Succeeded(prNumber, GenerateReport(run.gitServer, run.config, prNumber, analysis,
                                         run.meta(prNumber), run.clock(prNumber)))
  }

  /** One record per pull request, in input order. */
  function Records(run: Run, prs: seq<int>): (r: seq<BatchRecord>)
    ensures |r| == |prs|
  {
    seq(|prs|, i requires 0 <= i < |prs| => BatchRecordOf(run, prs[i]))
  }

  /** The report a record contributes: its own when it succeeded. */
  function Kept(record: BatchRecord): (r: seq<Report>) {
    if record.Succeeded? then [record.report] else []
  }

  /** The reports of the successful records, in order. */
  function SuccessReports(records: seq<BatchRecord>): (r: seq<Report>)
    decreases |records|
  {
    if records == [] then []
    else SuccessReports(records[..|records| - 1]) + Kept(records[|records| - 1])
  }

  /** The reports `main` collects, one per reviewed PR, in order. */
  function Reports(run: Run, prs: seq<int>): (r: seq<Report>)
    decreases |prs|
  {
    if prs == [] then []
    else Reports(run, prs[..|prs| - 1]) + Kept(BatchRecordOf(run, prs[|prs| - 1]))
  }

  /** The `post_review` call a loop makes for one pull request: one when
      it was reviewed, with the analysis as the comment, none otherwise. */
  function PostOf(run: Run, prNumber: int): (r: seq<PostAttempt>) {
    match ProcessPr(run, prNumber)
    case Reviewed(analysis) => [PostAttempt(prNumber, analysis, run.post(prNumber, analysis))]
    case _ => []
  }

  /** All `post_review` calls of a loop, in order. */
  function Posts(run: Run, prs: seq<int>): (r: seq<PostAttempt>)
    decreases |prs|
  {
    if prs == [] then []
    else Posts(run, prs[..|prs| - 1]) + PostOf(run, prs[|prs| - 1])
  }

  /** Whether `initialize_services` succeeds: the server name is supported
      and an engine exists or can be built. */
  predicate ServicesAvailable(gitServer: string, config: Config, engineCached: bool) {
    LookupProvider(gitServer).Some? && (engineCached || KeyConfigured(config.geminiApiKey))
  }

  /** The engine singleton after `initialize_services`: a cached engine is
      kept, an unsupported server name stops before the engine step, and
      otherwise the slot holds an engine exactly when the key is
      configured (a failed construction leaves it empty). */
  predicate EngineSlotAfterInit(gitServer: string, config: Config, before: AnalysisEngine?, after: AnalysisEngine?) {
    && (before != null || LookupProvider(gitServer).None? ==> after == before)
    && (before == null && LookupProvider(gitServer).Some? ==> (after != null <==> KeyConfigured(config.geminiApiKey)))
  }

  /** The client is pointed at the configured repository with the
      configured credentials. */
  predicate ServesRepository(service: GitHubService, config: Config)
    reads service
  {
    && service.owner == config.repoOwner && service.repoName == config.repoName
    && service.token == config.gitServiceToken && service.timeout == config.requestTimeout
  }

  /** The run's `fetch` and `post` are the calls of `service` over
      `transport`. */
  ghost predicate Drives(service: GitHubService, transport: HttpRequest -> TransportOutcome, run: Run)
    reads service
  {
    && (forall n {:trigger service.GetPullRequestDiff(n, transport)} :: run.fetch(n) == service.GetPullRequestDiff(n, transport))
    && (forall n, comment {:trigger service.PostReviewComment(n, comment, transport)} :: run.post(n, comment) == service.PostReviewComment(n, comment, transport))
  }

  /** A client pointed at the configured repository with the configured
      credentials is the one a run built from that configuration reads
      from and posts to. */
  lemma ConfiguredClientDrives(service: GitHubService, gitServer: string, config: Config, cols: Collaborators,
                               depth: string, meta: int -> Option<map<string, string>>)
    requires ServesRepository(service, config)
    ensures Drives(service, cols.transport, RunOf(gitServer, config, cols, depth, meta))
  {
    var run := RunOf(gitServer, config, cols, depth, meta);
    forall n
      ensures run.fetch(n) == service.GetPullRequestDiff(n, cols.transport)
    {
      assert run.fetch(n) == DiffOutcome(cols.transport(DiffRequestFor(config, n)));
    }
    forall n, comment
      ensures run.post(n, comment) == service.PostReviewComment(n, comment, cols.transport)
    {
      assert run.post(n, comment) == Delivered(cols.transport(CommentRequestFor(config, n, comment)));
    }
  }

  class PRReviewOrchestrator {
    const gitServer: string
    var gitService: GitHubService?
    var analysisEngine: AnalysisEngine?

    constructor (gitServer: string)
      ensures this.gitServer == gitServer && gitService == null && analysisEngine == null
    {
      this.gitServer := gitServer;
      gitService := null;
      analysisEngine := null;
    }

    /** `initialize_services`: each step may raise, which is caught and
        reported as `false`; the client is kept even when the engine step
        fails afterwards. */
    method InitializeServices(config: Config, slot: EngineSlot) returns (ok: bool)
      modifies this, slot
      ensures ok <==> ServicesAvailable(gitServer, config, old(slot.engine) != null)
      ensures LookupProvider(gitServer).None? ==> gitService == old(gitService) && slot.engine == old(slot.engine)
      ensures LookupProvider(gitServer).Some? ==>
                gitService != null && fresh(gitService) && ServesRepository(gitService, config)
      ensures ok ==> analysisEngine != null && analysisEngine == slot.engine
      ensures !ok ==> analysisEngine == old(analysisEngine)
      ensures EngineSlotAfterInit(gitServer, config, old(slot.engine), slot.engine)
      ensures old(slot.engine) == null && slot.engine != null ==> fresh(slot.engine)
    {
      var created := CreateService(gitServer, config.gitServiceToken, config.requestTimeout);
      if created.Failure? {
        return false;
      }
      gitService := created.value;
      gitService.SetRepository(config.repoOwner, config.repoName);
      var engine := slot.GetAnalysisEngine(config.geminiApiKey);
      if engine.Failure? {
        return false;
      }
      analysisEngine := engine.value;
      return true;
    }
  }

  /** `run_batch_analysis`'s result: `False`, or the list of records. */
  datatype BatchOutcome = InitFailed | Completed(records: seq<BatchRecord>)

  function NoMetadata(prNumber: int): (r: Option<map<string, string>>) {
    None
  }

  /** The batch loop analyses at the standard depth and reports without
      metadata. */
  function BatchRun(gitServer: string, config: Config, cols: Collaborators): (r: Run) {
    RunOf(gitServer, config, cols, StandardDepth, NoMetadata)
  }

  /** What `run_batch_analysis` returns and posts. */
  function BatchSpec(prs: seq<int>, gitServer: string, config: Config, cols: Collaborators, engineCached: bool): (BatchOutcome, seq<PostAttempt>) {
    if !ServicesAvailable(gitServer, config, engineCached) then (InitFailed, [])
    else (Completed(Records(BatchRun(gitServer, config, cols), prs)), Posts(BatchRun(gitServer, config, cols), prs))
  }

  /** The steps both loops take for one pull request: fetch the diff,
      analyse it, and when both succeed build the report and post the
      analysis as a comment. A failed step ends with the record of that
      failure and no post. */
  method ReviewPr(orchestrator: PRReviewOrchestrator, transport: HttpRequest -> TransportOutcome, run: Run, n: int)
    returns (record: BatchRecord, post: seq<PostAttempt>)
    requires orchestrator.gitService != null && Drives(orchestrator.gitService, transport, run)
    requires orchestrator.gitServer == run.gitServer
    ensures record == BatchRecordOf(run, n)
    ensures post == PostOf(run, n)
  {
    var service := orchestrator.gitService;
    PrSteps(run, n);
    var diff := FetchPrDiff(service.GetPullRequestDiff(n, transport));
    if diff.None? {
      assert ProcessPr(run, n) == FetchFailed;
      return Failed(n, FetchFailedError), [];
    }
    var analysis := AnalyzeChanges(diff.value, run.depth, run.analyze);
    if analysis.None? || analysis.value == [] {
      assert ProcessPr(run, n) == AnalysisRejected;
      return Failed(n, AnalysisFailedError), [];
    }
    assert ProcessPr(run, n) == Reviewed(analysis.value);
    var report := GenerateReport(orchestrator.gitServer, run.config, n, analysis.value, run.meta(n), run.clock(n));
    var posted := service.PostReviewComment(n, analysis.value, transport);
    return Succeeded(n, report), [PostAttempt(n, analysis.value, posted)];
  }

  /** Pass `i` of `run_batch_analysis`'s loop: PR `prs[i]` is reviewed
      after the ones before it, extending the records and the posts by its
      own. */
  method RecordStep(orchestrator: PRReviewOrchestrator, transport: HttpRequest -> TransportOutcome, run: Run,
                    prs: seq<int>, i: int, results: seq<BatchRecord>, posts: seq<PostAttempt>)
    returns (results': seq<BatchRecord>, posts': seq<PostAttempt>)
    requires orchestrator.gitService != null && Drives(orchestrator.gitService, transport, run)
    requires orchestrator.gitServer == run.gitServer
    requires 0 <= i < |prs|
    requires results == Records(run, prs[..i]) && posts == Posts(run, prs[..i])
    ensures results' == Records(run, prs[..i + 1]) && posts' == Posts(run, prs[..i + 1])
  {
    RecordsGrow(run, prs, i);
    PostsGrow(run, prs, i);
    var record, post := ReviewPr(orchestrator, transport, run, prs[i]);
    results' := results + [record];
    posts' := posts + post;
  }

  /** The loop of `run_batch_analysis`: one record per PR, and a post for
      each success once its record is appended. */
  method RecordEach(orchestrator: PRReviewOrchestrator, transport: HttpRequest -> TransportOutcome, run: Run, prs: seq<int>)
    returns (results: seq<BatchRecord>, posts: seq<PostAttempt>)
    requires orchestrator.gitService != null && Drives(orchestrator.gitService, transport, run)
    requires orchestrator.gitServer == run.gitServer
    ensures results == Records(run, prs)
    ensures posts == Posts(run, prs)
  {
    results := [];
    posts := [];
    for i := 0 to |prs|
      invariant results == Records(run, prs[..i])
      invariant posts == Posts(run, prs[..i])
    {
      results, posts := RecordStep(orchestrator, transport, run, prs, i, results, posts);
    }
    assert prs[..|prs|] == prs;
  }

  /** `run_batch_analysis`. */
  method RunBatchAnalysis(prs: seq<int>, config: Config, cols: Collaborators, slot: EngineSlot, gitServer: string := DefaultGitServer)
    returns (outcome: BatchOutcome, posts: seq<PostAttempt>)
    modifies slot
    ensures (outcome, posts) == BatchSpec(prs, gitServer, config, cols, old(slot.engine) != null)
    ensures EngineSlotAfterInit(gitServer, config, old(slot.engine), slot.engine)
    ensures old(slot.engine) == null && slot.engine != null ==> fresh(slot.engine)
  {
    var orchestrator := new PRReviewOrchestrator(gitServer);
    var ready := orchestrator.InitializeServices(config, slot);
    if !ready {
      return InitFailed, [];
    }
    var results;
    ConfiguredClientDrives(orchestrator.gitService, gitServer, config, cols, StandardDepth, NoMetadata);
    results, posts := RecordEach(orchestrator, cols.transport, BatchRun(gitServer, config, cols), prs);
    outcome := Completed(results);
  }

  /** The command-line arguments `main` uses (the output options are not
      modelled). `prNumbers` is empty when `--pr-numbers` is not given;
      argparse never yields an empty list for it. */
  datatype CliArgs = CliArgs(gitServer: string, prNumbers: seq<int>, reviewDepth: string)

  /** How `main` ends: with an exit status and the reports it collected,
      or with an uncaught exception. */
  datatype MainOutcome = Exited(code: int, reports: seq<Report>) | Crashed(error: string)

  /** argparse's `choices` for `--git-server` and `--review-depth`. */
  predicate ValidArguments(args: CliArgs) {
    && args.gitServer in {"github", "gitlab", "bitbucket"}
    && args.reviewDepth in {StandardDepth, ComprehensiveDepth, SecurityDepth}
  }

  function InvalidLiteralMessage(s: string): (r: string) {
    "invalid literal for int() with base 10: '" + s + "'"
  }

  /** The PR list of `main`. The conditional expression binds loosest, so
      the command-line list is only looked at when `PR_NUMBER` is set, and
      `int(PR_NUMBER)` is only evaluated when that list is absent. */
  function SelectPrNumbers(cli: seq<int>, envPr: Option<string>): (r: Result<seq<int>, string>)
    ensures r.Failure? ==> cli == [] && envPr.Some? && ParseInt(envPr.value).None?
                           && r.error == InvalidLiteralMessage(envPr.value)
    ensures r.Success? && r.value != [] ==> envPr.Some? && envPr.value != []
    ensures r.Success? && cli != [] ==> r.value == cli || r.value == []
  {
    if envPr.None? || envPr.value == [] then Success([])
    else if cli != [] then Success(cli)
    else
      match ParseInt(envPr.value)
      case None => Failure(InvalidLiteralMessage(envPr.value))
      case Some(k) => Success([k])
  }

  /** Without `PR_NUMBER` the list is empty, whatever was passed on the
      command line. */
  lemma CliIgnoredWithoutEnvPr(cli: seq<int>, envPr: Option<string>)
    requires envPr.None? || envPr.value == []
    ensures SelectPrNumbers(cli, envPr) == Success([])
  {
  }

  /** With `PR_NUMBER` set, the command-line list wins; without it, the
      decimal rendering of any integer is read back as that integer. */
  lemma EnvPrNumberUsed(cli: seq<int>, k: int)
    ensures cli != [] ==> SelectPrNumbers(cli, Some(IntToString(k))) == Success(cli)
    ensures cli == [] ==> SelectPrNumbers(cli, Some(IntToString(k))) == Success([k])
  {
    IntRoundTrip(k);
    ParsedEnvPrNumber(cli, IntToString(k), k);
  }

  lemma ParsedEnvPrNumber(cli: seq<int>, s: string, k: int)
    requires ParseInt(s) == Some(k)
    ensures cli != [] ==> SelectPrNumbers(cli, Some(s)) == Success(cli)
    ensures cli == [] ==> SelectPrNumbers(cli, Some(s)) == Success([k])
  {
    assert s != [];
  }

  /** The main loop analyses at the requested depth and asks for metadata. */
  function MainRun(args: CliArgs, config: Config, cols: Collaborators): (r: Run) {
    RunOf(args.gitServer, config, cols, args.reviewDepth, cols.metadata)
  }

  /** Whether `main` gets as far as `initialize_services`: the arguments
      are valid and a non-empty PR list was selected. */
  predicate MainInitializes(args: CliArgs, config: Config) {
    && ValidArguments(args)
    && SelectPrNumbers(args.prNumbers, config.prNumber).Success?
    && SelectPrNumbers(args.prNumbers, config.prNumber).value != []
  }

  /** What `main` ends with and posts. */
  function MainSpec(args: CliArgs, config: Config, cols: Collaborators, engineCached: bool): (MainOutcome, seq<PostAttempt>) {
    if !ValidArguments(args) then (Exited(2, []), [])
    else
      match SelectPrNumbers(args.prNumbers, config.prNumber)
      case Failure(e) => (Crashed(e), [])
      case Success(prs) =>
        if prs == [] || !ServicesAvailable(args.gitServer, config, engineCached) then (Exited(1, []), [])
        else
          var run := MainRun(args, config, cols);
          (Exited(0, Reports(run, prs)), Posts(run, prs))
  }

  /** Pass `i` of `main`'s loop: PR `prs[i]` is reviewed after the ones
      before it; its report is appended only when it succeeded. */
  method ReportStep(orchestrator: PRReviewOrchestrator, transport: HttpRequest -> TransportOutcome, run: Run,
                    prs: seq<int>, i: int, reports: seq<Report>, posts: seq<PostAttempt>)
    returns (reports': seq<Report>, posts': seq<PostAttempt>)
    requires orchestrator.gitService != null && Drives(orchestrator.gitService, transport, run)
    requires orchestrator.gitServer == run.gitServer
    requires 0 <= i < |prs|
    requires reports == Reports(run, prs[..i]) && posts == Posts(run, prs[..i])
    ensures reports' == Reports(run, prs[..i + 1]) && posts' == Posts(run, prs[..i + 1])
  {
    ReportsGrow(run, prs, i);
    PostsGrow(run, prs, i);
    var record, post := ReviewPr(orchestrator, transport, run, prs[i]);
    reports' := reports;
    if record.Succeeded? {
      reports' := reports' + [record.report];
    }
    posts' := posts + post;
  }

  /** The per-PR loop of `main`: PRs whose fetch or analysis fails are
      skipped; the others are reported with their metadata and posted. */
  method ReportEach(orchestrator: PRReviewOrchestrator, transport: HttpRequest -> TransportOutcome, run: Run, prs: seq<int>)
    returns (reports: seq<Report>, posts: seq<PostAttempt>)
    requires orchestrator.gitService != null && Drives(orchestrator.gitService, transport, run)
    requires orchestrator.gitServer == run.gitServer
    ensures reports == Reports(run, prs)
    ensures posts == Posts(run, prs)
  {
    reports := [];
    posts := [];
    for i := 0 to |prs|
      invariant reports == Reports(run, prs[..i])
      invariant posts == Posts(run, prs[..i])
    {
      reports, posts := ReportStep(orchestrator, transport, run, prs, i, reports, posts);
    }
    assert prs[..|prs|] == prs;
  }

  /** `main`, from parsed arguments to exit status. */
  method RunMain(args: CliArgs, config: Config, cols: Collaborators, slot: EngineSlot)
    returns (outcome: MainOutcome, posts: seq<PostAttempt>)
    modifies slot
    ensures (outcome, posts) == MainSpec(args, config, cols, old(slot.engine) != null)
    ensures MainInitializes(args, config) ==> EngineSlotAfterInit(args.gitServer, config, old(slot.engine), slot.engine)
    ensures !MainInitializes(args, config) ==> slot.engine == old(slot.engine)
    ensures old(slot.engine) == null && slot.engine != null ==> fresh(slot.engine)
  {
    if !ValidArguments(args) {
      return Exited(2, []), [];
    }
    var selected := SelectPrNumbers(args.prNumbers, config.prNumber);
    if selected.Failure? {
      return Crashed(selected.error), [];
    }
    var prs := selected.value;
    if prs == [] {
      return Exited(1, []), [];
    }
    var orchestrator := new PRReviewOrchestrator(args.gitServer);
    var ready := orchestrator.InitializeServices(config, slot);
    if !ready {
      return Exited(1, []), [];
    }
    var reports;
    ConfiguredClientDrives(orchestrator.gitService, args.gitServer, config, cols, args.reviewDepth, cols.metadata);
    reports, posts := ReportEach(orchestrator, cols.transport, MainRun(args, config, cols), prs);
    outcome := Exited(0, reports);
  }

  /** The report a loop makes for a reviewed pull request. */
  function ReportOf(run: Run, prNumber: int, analysis: string): (r: Report) {
    GenerateReport(run.gitServer, run.config, prNumber, analysis, run.meta(prNumber), run.clock(prNumber))
  }

  /** The three ways one record can end, each with its condition; a
      success carries the report of that PR's analysis. */
  lemma BatchRecordCases(run: Run, prNumber: int)
    ensures BatchRecordOf(run, prNumber) == Failed(prNumber, FetchFailedError)
            <==> FetchPrDiff(run.fetch(prNumber)).None?
    ensures BatchRecordOf(run, prNumber) == Failed(prNumber, AnalysisFailedError)
            <==> ProcessPr(run, prNumber) == AnalysisRejected
    ensures BatchRecordOf(run, prNumber).Succeeded?
            <==> ProcessPr(run, prNumber).Reviewed?
    ensures BatchRecordOf(run, prNumber).Succeeded? ==>
              BatchRecordOf(run, prNumber).report == ReportOf(run, prNumber, ProcessPr(run, prNumber).analysis)
    ensures BatchRecordOf(run, prNumber).prNumber == prNumber
  {
  }

  /** With the fetch failing, the record is the same whatever the analyser
      would have said. */
  lemma FetchFailureSkipsAnalysis(run: Run, prNumber: int, analyze: (string, string) -> string)
    requires FetchPrDiff(run.fetch(prNumber)).None?
    ensures BatchRecordOf(run.(analyze := analyze), prNumber) == BatchRecordOf(run, prNumber)
            == Failed(prNumber, FetchFailedError)
  {
  }

  /** The record and the post of one pull request, by how it ended. */
  lemma PrSteps(run: Run, n: int)
    ensures ProcessPr(run, n) == FetchFailed ==> BatchRecordOf(run, n) == Failed(n, FetchFailedError) && PostOf(run, n) == []
    ensures ProcessPr(run, n) == AnalysisRejected ==> BatchRecordOf(run, n) == Failed(n, AnalysisFailedError) && PostOf(run, n) == []
    ensures ProcessPr(run, n).Reviewed? ==>
              var a := ProcessPr(run, n).analysis;
              && BatchRecordOf(run, n) == Succeeded(n, ReportOf(run, n, a))
              && PostOf(run, n) == [PostAttempt(n, a, run.post(n, a))]
  {
  }

  lemma RecordsSnoc(run: Run, prs: seq<int>, n: int)
    ensures Records(run, prs + [n]) == Records(run, prs) + [BatchRecordOf(run, n)]
  {
    RecordsAppend(run, prs, [n]);
  }

  /** One more pass of a loop adds exactly the next PR's share. */
  lemma RecordsGrow(run: Run, prs: seq<int>, i: int)
    requires 0 <= i < |prs|
    ensures Records(run, prs[..i + 1]) == Records(run, prs[..i]) + [BatchRecordOf(run, prs[i])]
  {
    assert prs[..i + 1] == prs[..i] + [prs[i]];
    RecordsSnoc(run, prs[..i], prs[i]);
  }

  lemma PostsGrow(run: Run, prs: seq<int>, i: int)
    requires 0 <= i < |prs|
    ensures Posts(run, prs[..i + 1]) == Posts(run, prs[..i]) + PostOf(run, prs[i])
  {
    assert prs[..i + 1] == prs[..i] + [prs[i]];
    PostsSnoc(run, prs[..i], prs[i]);
  }

  lemma ReportsGrow(run: Run, prs: seq<int>, i: int)
    requires 0 <= i < |prs|
    ensures Reports(run, prs[..i + 1]) == Reports(run, prs[..i]) + Kept(BatchRecordOf(run, prs[i]))
  {
    assert prs[..i + 1] == prs[..i] + [prs[i]];
    ReportsSnoc(run, prs[..i], prs[i]);
  }

  lemma PostsSnoc(run: Run, prs: seq<int>, n: int)
    ensures Posts(run, prs + [n]) == Posts(run, prs) + PostOf(run, n)
  {
    assert (prs + [n])[..|prs|] == prs;
  }

  lemma ReportsSnoc(run: Run, prs: seq<int>, n: int)
    ensures Reports(run, prs + [n]) == Reports(run, prs) + Kept(BatchRecordOf(run, n))
  {
    assert (prs + [n])[..|prs|] == prs;
  }

  /** `main`'s reports are the reports of the records `run_batch_analysis`
      would return for the same run. */
  lemma {:induction false} ReportsAreSuccessReports(run: Run, prs: seq<int>)
    ensures Reports(run, prs) == SuccessReports(Records(run, prs))
    decreases |prs|
  {
    if prs != [] {
      var init, n := prs[..|prs| - 1], prs[|prs| - 1];
      assert prs == init + [n];
      ReportsAreSuccessReports(run, init);
      RecordsSnoc(run, init, n);
      SuccessReportsSnoc(Records(run, init), BatchRecordOf(run, n));
    }
  }

  lemma SuccessReportsSnoc(records: seq<BatchRecord>, last: BatchRecord)
    ensures SuccessReports(records + [last]) == SuccessReports(records) + Kept(last)
  {
    assert (records + [last])[..|records|] == records;
  }

  /** Reports keep the order of the records. */
  lemma {:induction false} SuccessReportsAppend(a: seq<BatchRecord>, b: seq<BatchRecord>)
    ensures SuccessReports(a + b) == SuccessReports(a) + SuccessReports(b)
    decreases |b|
  {
    if b == [] {
      assert a + b == a;
    } else {
      var init, last := b[..|b| - 1], b[|b| - 1];
      calc {
        SuccessReports(a + b);
        { assert a + b == (a + init) + [last]; }
        SuccessReports((a + init) + [last]);
        { SuccessReportsSnoc(a + init, last); }
        SuccessReports(a + init) + Kept(last);
        { SuccessReportsAppend(a, init); }
        (SuccessReports(a) + SuccessReports(init)) + Kept(last);
        SuccessReports(a) + (SuccessReports(init) + Kept(last));
        { assert b == init + [last]; SuccessReportsSnoc(init, last); }
        SuccessReports(a) + SuccessReports(b);
      }
    }
  }

  /** Records of a concatenation are the concatenated records. */
  lemma RecordsAppend(run: Run, p: seq<int>, q: seq<int>)
    ensures Records(run, p + q) == Records(run, p) + Records(run, q)
  {
    forall i | 0 <= i < |p + q|
      ensures Records(run, p + q)[i] == (Records(run, p) + Records(run, q))[i]
    {
      if i >= |p| {
        assert (p + q)[i] == q[i - |p|];
      }
    }
  }

  /** The reports of `main` for `p + q` are those for `p` followed by
      those for `q`. */
  lemma ReportsOfConcatenation(run: Run, p: seq<int>, q: seq<int>)
    ensures Reports(run, p + q) == Reports(run, p) + Reports(run, q)
  {
    ReportsAreSuccessReports(run, p + q);
    ReportsAreSuccessReports(run, p);
    ReportsAreSuccessReports(run, q);
    RecordsAppend(run, p, q);
    SuccessReportsAppend(Records(run, p), Records(run, q));
  }

  /** Each kept report comes from a successful record. */
  lemma {:induction false} SuccessReportSource(records: seq<BatchRecord>, j: int) returns (i: int)
    requires 0 <= j < |SuccessReports(records)|
    ensures 0 <= i < |records| && records[i].Succeeded? && records[i].report == SuccessReports(records)[j]
    decreases |records|
  {
    var init, last := records[..|records| - 1], records[|records| - 1];
    assert records == init + [last];
    SuccessReportsSnoc(init, last);
    if j < |SuccessReports(init)| {
      i := SuccessReportSource(init, j);
      assert records[i] == init[i];
    } else {
      i := |records| - 1;
    }
  }

  /** Every successful record's report is kept. */
  lemma {:induction false} SuccessReportKept(records: seq<BatchRecord>, i: int) returns (j: int)
    requires 0 <= i < |records| && records[i].Succeeded?
    ensures 0 <= j < |SuccessReports(records)| && SuccessReports(records)[j] == records[i].report
    decreases |records|
  {
    var init, last := records[..|records| - 1], records[|records| - 1];
    assert records == init + [last];
    SuccessReportsSnoc(init, last);
    if i < |init| {
      assert records[i] == init[i];
      j := SuccessReportKept(init, i);
    } else {
      j := |SuccessReports(init)|;
    }
  }

  /** Every report is the one built from its PR's analysis, and that PR was
      reviewed. */
  lemma ReportsAreReviewed(run: Run, prs: seq<int>, j: int)
    requires 0 <= j < |Reports(run, prs)|
    ensures var report := Reports(run, prs)[j];
            && report.prNumber in prs
            && ProcessPr(run, report.prNumber) == Reviewed(report.analysis)
            && report == ReportOf(run, report.prNumber, report.analysis)
  {
    ReportsAreSuccessReports(run, prs);
    var i := SuccessReportSource(Records(run, prs), j);
    BatchRecordCases(run, prs[i]);
  }

  /** A PR in the list whose fetch and analysis succeed has a report. */
  lemma ReviewedIsReported(run: Run, prs: seq<int>, i: int) returns (j: int)
    requires 0 <= i < |prs| && ProcessPr(run, prs[i]).Reviewed?
    ensures 0 <= j < |Reports(run, prs)|
    ensures Reports(run, prs)[j].prNumber == prs[i]
  {
    ReportsAreSuccessReports(run, prs);
    BatchRecordCases(run, prs[i]);
    j := SuccessReportKept(Records(run, prs), i);
  }

  /** A pull request gets a report exactly when it is in the list and its
      fetch and analysis both succeed. */
  lemma ReportedIff(run: Run, prs: seq<int>, n: int)
    ensures var reports := Reports(run, prs);
            (exists j :: 0 <= j < |reports| && reports[j].prNumber == n)
            <==> n in prs && ProcessPr(run, n).Reviewed?
  {
    var reports := Reports(run, prs);
    if j :| 0 <= j < |reports| && reports[j].prNumber == n {
      ReportsAreReviewed(run, prs, j);
    }
    if n in prs && ProcessPr(run, n).Reviewed? {
      var i :| 0 <= i < |prs| && prs[i] == n;
      var j := ReviewedIsReported(run, prs, i);
    }
  }

  /** Posting happens once per report, for the same PR and with the
      report's analysis as the comment, in the same order. */
  lemma {:induction false} PostsFollowReports(run: Run, prs: seq<int>)
    ensures var reports := Reports(run, prs);
            var posts := Posts(run, prs);
            && |posts| == |reports|
            && forall j :: 0 <= j < |posts| ==>
                 posts[j].prNumber == reports[j].prNumber && posts[j].comment == reports[j].analysis
    decreases |prs|
  {
    if prs != [] {
      var init, n := prs[..|prs| - 1], prs[|prs| - 1];
      assert prs == init + [n];
      ReportsSnoc(run, init, n);
      PostsSnoc(run, init, n);
      BatchRecordCases(run, n);
      PostsFollowReports(run, init);
    }
  }

  /** The records depend on the transport only through the diff requests:
      what a comment post answers never changes a status. */
  lemma RecordsIgnorePostReplies(prs: seq<int>, gitServer: string, config: Config, cols: Collaborators, engineCached: bool,
                                 transport: HttpRequest -> TransportOutcome)
    requires forall n :: transport(DiffRequestFor(config, n)) == cols.transport(DiffRequestFor(config, n))
    ensures BatchSpec(prs, gitServer, config, cols.(transport := transport), engineCached).0
            == BatchSpec(prs, gitServer, config, cols, engineCached).0
  {
    var run := BatchRun(gitServer, config, cols);
    var other := BatchRun(gitServer, config, cols.(transport := transport));
    forall i | 0 <= i < |prs|
      ensures Records(other, prs)[i] == Records(run, prs)[i]
    {
      assert other.fetch(prs[i]) == run.fetch(prs[i]);
    }
    assert Records(other, prs) == Records(run, prs);
  }

  /** `run_batch_analysis` returns `False` before any PR when initialisation
      fails, and otherwise exactly one record per PR, in order. */
  lemma BatchOneRecordPerPr(prs: seq<int>, gitServer: string, config: Config, cols: Collaborators, engineCached: bool)
    ensures var (outcome, posts) := BatchSpec(prs, gitServer, config, cols, engineCached);
            && (outcome == InitFailed <==> !ServicesAvailable(gitServer, config, engineCached))
            && (outcome == InitFailed ==> posts == [])
            && (outcome.Completed? ==>
                  |outcome.records| == |prs|
                  && forall i :: 0 <= i < |prs| ==> outcome.records[i].prNumber == prs[i])
  {
    var (outcome, posts) := BatchSpec(prs, gitServer, config, cols, engineCached);
    if outcome.Completed? {
      var run := BatchRun(gitServer, config, cols);
      forall i | 0 <= i < |prs|
        ensures outcome.records[i].prNumber == prs[i]
      {
        BatchRecordCases(run, prs[i]);
      }
    }
  }

  /** Unset `PR_NUMBER` makes `main` exit with 1 having posted nothing,
      even when `--pr-numbers` was given. */
  lemma MainNeedsEnvPrNumber(args: CliArgs, config: Config, cols: Collaborators, engineCached: bool)
    requires ValidArguments(args)
    requires config.prNumber.None? || config.prNumber.value == []
    ensures MainSpec(args, config, cols, engineCached) == (Exited(1, []), [])
  {
    CliIgnoredWithoutEnvPr(args.prNumbers, config.prNumber);
  }

  /** `main` exits with 0 only after reviewing, and then its reports are
      those of the reviewed PRs of the selected list, each posted once. */
  lemma MainSuccess(args: CliArgs, config: Config, cols: Collaborators, engineCached: bool)
    requires MainSpec(args, config, cols, engineCached).0.Exited?
    requires MainSpec(args, config, cols, engineCached).0.code == 0
    ensures SelectPrNumbers(args.prNumbers, config.prNumber).Success?
    ensures var prs := SelectPrNumbers(args.prNumbers, config.prNumber).value;
            var reports := MainSpec(args, config, cols, engineCached).0.reports;
            var run := MainRun(args, config, cols);
            && prs != [] && ServicesAvailable(args.gitServer, config, engineCached)
            && config.prNumber.Some? && config.prNumber.value != []
            && (forall n :: (exists j :: 0 <= j < |reports| && reports[j].prNumber == n)
                            <==> n in prs && ProcessPr(run, n).Reviewed?)
            && |MainSpec(args, config, cols, engineCached).1| == |reports|
  {
    var prs := SelectPrNumbers(args.prNumbers, config.prNumber).value;
    var run := MainRun(args, config, cols);
    forall n {
      ReportedIff(run, prs, n);
    }
    PostsFollowReports(run, prs);
  }
}

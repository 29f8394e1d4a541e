/** The `POST /analyze` handler of app.py as a function from the parsed
    request to the HTTP status and JSON body it answers with.

    Flask routing and `jsonify` are not modelled; the JSON body arrives
    already parsed. The diff fetch goes through the GitHub client's request
    (`transport` is the network), the analysis through the engine
    (`generate` is the model), and `config` is the `Settings` value. */
module AnalyzeEndpoint {
  import opened Wrappers
  import opened Text
  import opened GithubUrl
  import opened GitServices
  import opened Analysis

  const UrlField := "pull_request_url"
  const MissingUrlMessage := "Missing 'pull_request_url' in request body."
  const FetchFailedMessage := "Failed to fetch diff. Check if the URL is correct and the repository is public."
  const InternalErrorMessage := "An internal server error occurred. Please try again later."

  /** A JSON value in the request: a string, or anything else. */
  datatype JsonValue = JsonString(s: string) | JsonOther

  /** What `request.get_json()` returns for a JSON request: `NoJson` for a
      falsy document (`null`, `[]`, `""`, `0`, `false`), or an object (`{}`
      being the object without fields). */
  datatype RequestBody = NoJson | JsonObject(fields: map<string, JsonValue>)

  /** The configuration values the handler reads. */
  datatype Settings = Settings(
    gitServiceToken: Option<string>,
    requestTimeout: int,
    maxDiffSize: int,
    geminiApiKey: Option<string>)

  datatype ResponseBody =
    | ErrorBody(error: string)
    | FeedbackBody(feedback: string, repository: string, prNumber: nat)

  datatype Response = Response(status: int, body: ResponseBody)

  function TooLargeMessage(size: nat, maxSize: int): (r: string) {
    "Diff is too large (" + NatToString(size) + " bytes). Max size is " + IntToString(maxSize) + " bytes."
  }

  /** `validate_github_url` on an arbitrary JSON value: anything that is not
      a string fails the `isinstance` test with the same message as "". */
  function ValidateField(v: JsonValue): (r: Result<PrRef, string>)
    ensures r.Failure? ==> r.error == EmptyUrlMessage || r.error == FormatMessage
  {
    match v
    case JsonString(s) => ValidateGithubUrl(s)
    case JsonOther => Failure(EmptyUrlMessage)
  }

  /** The diff request of a fresh `get_git_service('github')` after
      `set_repository(owner, repo)`. */
  function FetchRequest(ref: PrRef, settings: Settings): (r: HttpRequest) {
    DiffRequest(Some(ref.owner), Some(ref.repo), settings.gitServiceToken, settings.requestTimeout, ref.number)
  }

  /** `analyze()`: each check returns early, in source order. */
  function HandleAnalyze(body: RequestBody, settings: Settings, transport: HttpRequest -> TransportOutcome, generate: string -> ModelReply): (r: Response)
    ensures r.status in {200, 400, 404, 413, 500}
    ensures r.status == 200 <==> r.body.FeedbackBody?
  {
    if body.NoJson? || UrlField !in body.fields then Response(400, ErrorBody(MissingUrlMessage))
    else
      match ValidateField(body.fields[UrlField])
      case Failure(message) => Response(400, ErrorBody(message))
      case Success(ref) => ReviewPullRequest(ref, settings, transport, generate)
  }

  /** The steps of `analyze()` after the URL is validated. The only
      exception that reaches the generic `except Exception` is the engine
      constructor's `ValueError` for a missing key. */
  function ReviewPullRequest(ref: PrRef, settings: Settings, transport: HttpRequest -> TransportOutcome, generate: string -> ModelReply): (r: Response)
    ensures r.status in {200, 404, 413, 500}
    ensures r.status == 200 <==> r.body.FeedbackBody?
  {
    match DiffOutcome(transport(FetchRequest(ref, settings)))
    case None => Response(404, ErrorBody(FetchFailedMessage))
    case Some(diff) =>
      if |diff| > settings.maxDiffSize then
        Response(413, ErrorBody(TooLargeMessage(|diff|, settings.maxDiffSize)))
      else if !KeyConfigured(settings.geminiApiKey) then
        Response(500, ErrorBody(InternalErrorMessage))
      else
        var analysis := AnalyzeCodeChanges(diff, generate);
        if IsErrorResult(analysis) then Response(500, ErrorBody(analysis))
        else Response(200, FeedbackBody(analysis, ref.owner + "/" + ref.repo, ref.number))
  }

  function BodyWithUrl(url: string): (r: RequestBody) {
    JsonObject(map[UrlField := JsonString(url)])
  }

  /** A valid URL in the body hands over to the review steps. */
  lemma HandleValidUrl(url: string, settings: Settings, transport: HttpRequest -> TransportOutcome, generate: string -> ModelReply)
    requires ValidateGithubUrl(url).Success?
    ensures HandleAnalyze(BodyWithUrl(url), settings, transport, generate)
            == ReviewPullRequest(ValidateGithubUrl(url).value, settings, transport, generate)
  {
    assert BodyWithUrl(url).fields[UrlField] == JsonString(url);
  }

  /** A body without `pull_request_url` is a 400. */
  lemma MissingUrlIsBadRequest(body: RequestBody, settings: Settings, transport: HttpRequest -> TransportOutcome, generate: string -> ModelReply)
    requires body.NoJson? || UrlField !in body.fields
    ensures HandleAnalyze(body, settings, transport, generate) == Response(400, ErrorBody(MissingUrlMessage))
  {
  }

  /** An invalid URL is a 400 carrying the validator's message, whatever the
      network and the model would have done: nothing is fetched. */
  lemma InvalidUrlRejectedBeforeFetch(url: string, settings: Settings,
                                      t1: HttpRequest -> TransportOutcome, g1: string -> ModelReply,
                                      t2: HttpRequest -> TransportOutcome, g2: string -> ModelReply)
    requires ValidateGithubUrl(url).Failure?
    ensures HandleAnalyze(BodyWithUrl(url), settings, t1, g1) == HandleAnalyze(BodyWithUrl(url), settings, t2, g2)
    ensures HandleAnalyze(BodyWithUrl(url), settings, t1, g1) == Response(400, ErrorBody(ValidateGithubUrl(url).error))
  {
  }

  /** A failed fetch is a 404, and the model is not consulted. */
  lemma FetchFailureIsNotFound(ref: PrRef, settings: Settings, transport: HttpRequest -> TransportOutcome, generate: string -> ModelReply)
    requires !Delivered(transport(FetchRequest(ref, settings)))
    ensures ReviewPullRequest(ref, settings, transport, generate) == Response(404, ErrorBody(FetchFailedMessage))
  {
  }

  /** The size limit is strict: a diff longer than `MAX_DIFF_SIZE` is a 413
      naming both sizes, one of exactly that length goes on to the
      analysis. */
  lemma DiffSizeLimit(ref: PrRef, settings: Settings, transport: HttpRequest -> TransportOutcome, generate: string -> ModelReply)
    requires Delivered(transport(FetchRequest(ref, settings)))
    ensures var size := |transport(FetchRequest(ref, settings)).text|;
            && (ReviewPullRequest(ref, settings, transport, generate).status == 413 <==> size > settings.maxDiffSize)
            && (size > settings.maxDiffSize ==>
                  ReviewPullRequest(ref, settings, transport, generate).body == ErrorBody(TooLargeMessage(size, settings.maxDiffSize)))
  {
  }

  /** A delivered diff that is empty, whatever its non-error status, is a
      500 with the engine's empty-diff message; the model is never asked. */
  lemma EmptyDiffIsServerError(ref: PrRef, settings: Settings, transport: HttpRequest -> TransportOutcome, generate: string -> ModelReply)
    requires Delivered(transport(FetchRequest(ref, settings))) && transport(FetchRequest(ref, settings)).text == []
    requires settings.maxDiffSize >= 0 && KeyConfigured(settings.geminiApiKey)
    ensures ReviewPullRequest(ref, settings, transport, generate) == Response(500, ErrorBody(EmptyDiffMessage))
  {
    EmptyDiffSkipsModel(generate, generate);
  }

  /** A model reply that itself starts with "Error:" cannot be told apart
      from an engine failure and is answered with a 500 carrying that
      reply. */
  lemma ErrorLookingReplyIsServerError(ref: PrRef, settings: Settings, transport: HttpRequest -> TransportOutcome, generate: string -> ModelReply)
    requires var fetched := transport(FetchRequest(ref, settings));
             && Delivered(fetched) && fetched.text != [] && |fetched.text| <= settings.maxDiffSize
             && generate(GeneratePrompt(fetched.text)).Replied?
             && IsErrorResult(generate(GeneratePrompt(fetched.text)).text)
    requires KeyConfigured(settings.geminiApiKey)
    ensures var fetched := transport(FetchRequest(ref, settings));
            ReviewPullRequest(ref, settings, transport, generate)
            == Response(500, ErrorBody(generate(GeneratePrompt(fetched.text)).text))
  {
  }

  /** A 200 is only given when every check passed, and it carries the
      model's reply unchanged with the parsed repository and number. */
  lemma OkResponseContents(body: RequestBody, settings: Settings, transport: HttpRequest -> TransportOutcome, generate: string -> ModelReply)
    requires HandleAnalyze(body, settings, transport, generate).status == 200
    ensures body.JsonObject? && UrlField in body.fields && ValidateField(body.fields[UrlField]).Success?
    ensures var ref := ValidateField(body.fields[UrlField]).value;
            var fetched := transport(FetchRequest(ref, settings));
            var r := HandleAnalyze(body, settings, transport, generate);
            && Delivered(fetched) && fetched.text != [] && |fetched.text| <= settings.maxDiffSize
            && KeyConfigured(settings.geminiApiKey)
            && generate(GeneratePrompt(fetched.text)) == Replied(r.body.feedback)
            && !IsErrorResult(r.body.feedback)
            && r.body.repository == ref.owner + "/" + ref.repo
            && r.body.prNumber == ref.number
  {
  }

  /** End to end: the canonical URL of any pull request, a diff delivered
      with any non-error status and within the limit, and a successful
      model call give a 200 with the model's text. */
  lemma CanonicalUrlReviewed(owner: string, repo: string, number: nat, settings: Settings,
                             transport: HttpRequest -> TransportOutcome, generate: string -> ModelReply, diff: string, review: string)
    requires IsSlug(owner) && IsSlug(repo)
    requires var fetched := transport(DiffRequest(Some(owner), Some(repo), settings.gitServiceToken, settings.requestTimeout, number));
             Delivered(fetched) && fetched.text == diff
    requires diff != [] && |diff| <= settings.maxDiffSize && KeyConfigured(settings.geminiApiKey)
    requires generate(GeneratePrompt(diff)) == Replied(review) && !IsErrorResult(review)
    ensures HandleAnalyze(BodyWithUrl(CanonicalPullUrl(owner, repo, number)), settings, transport, generate)
            == Response(200, FeedbackBody(review, owner + "/" + repo, number))
  {
    ValidateAnyNumber(owner, repo, number);
    HandleValidUrl(CanonicalPullUrl(owner, repo, number), settings, transport, generate);
  }

  /** The diff URL, re-associated around the owner. */
  lemma DiffUrlShape(owner: string, repo: string, number: int, token: Option<string>, timeout: int)
    ensures DiffRequest(Some(owner), Some(repo), token, timeout, number).url
            == (GitHubApiBase + "/repos/") + (owner + ("/" + (repo + ("/pulls/" + IntToString(number)))))
  {
    var d := IntToString(number);
    var base := GitHubApiBase + "/repos/";
    assert base + owner + "/" + repo + "/pulls/" + d == base + (owner + "/" + repo + "/pulls/" + d);
    assert owner + "/" + repo + "/pulls/" + d == owner + ("/" + repo + "/pulls/" + d);
    assert "/" + repo + "/pulls/" + d == "/" + (repo + "/pulls/" + d);
    assert repo + "/pulls/" + d == repo + ("/pulls/" + d);
  }

  /** Distinct validated pull requests are fetched from distinct URLs. */
  lemma DistinctPullRequestsDistinctUrls(a: PrRef, b: PrRef, settings: Settings)
    requires IsSlug(a.owner) && IsSlug(a.repo) && IsSlug(b.owner) && IsSlug(b.repo)
    requires FetchRequest(a, settings).url == FetchRequest(b, settings).url
    ensures a == b
  {
    var base := GitHubApiBase + "/repos/";
    var da, db := NatToString(a.number), NatToString(b.number);
    var ta := a.owner + ("/" + (a.repo + ("/pulls/" + da)));
    var tb := b.owner + ("/" + (b.repo + ("/pulls/" + db)));
    DiffUrlShape(a.owner, a.repo, a.number, settings.gitServiceToken, settings.requestTimeout);
    DiffUrlShape(b.owner, b.repo, b.number, settings.gitServiceToken, settings.requestTimeout);
    assert ta == (base + ta)[|base|..] == (base + tb)[|base|..] == tb;
    SlugThenOf(a.owner, "/", a.repo + ("/pulls/" + da));
    SlugThenOf(b.owner, "/", b.repo + ("/pulls/" + db));
    SlugThenOf(a.repo, "/pulls/", da);
    SlugThenOf(b.repo, "/pulls/", db);
    DecimalInjective(a.number, b.number);
  }
}

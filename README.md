# RepoSage pull-request review agent — a Dafny model

RepoSage reviews GitHub pull requests with a language model. It has two
front ends:

- a Flask endpoint `POST /analyze`, which takes the URL of a pull request,
  checks it, fetches the diff from the GitHub API and answers with the
  model's review;
- a command-line orchestrator, which reviews a list of pull requests of one
  configured repository, collects reports and posts each review back as a
  comment.

This project models the decision logic of both front ends and of the two
services they share. Those services are the GitHub client and the Gemini
analysis engine.

| file | module | models |
|---|---|---|
| `wrappers.dfy` | `Wrappers` | `Option` and `Result` |
| `text.dfy` | `Text` | The Python string operations the code relies on: `str.strip`, `\d`, `in` on strings, `int()`, `str.lower`, decimal rendering |
| `github_url.dfy` | `GithubUrl` | `validate_github_url`. The regular expression is written out as a scanner and proved equal to the pattern it stands for. |
| `git_services.dfy` | `GitServices` | `GitHubService`: its state, the requests it builds and how it maps failures. Also the provider factory and `get_git_service`. |
| `analysis_engine.dfy` | `Analysis` | `AnalysisEngine`: the prompt, `analyze_code_changes`, and the `get_analysis_engine` singleton |
| `analyze_endpoint.dfy` | `AnalyzeEndpoint` | The `/analyze` handler, from the parsed request body to the status code and JSON body |
| `orchestrator.dfy` | `Orchestration` | `PRReviewOrchestrator`, `run_batch_analysis`, and the PR selection and per-PR loop of `main` |

The outside world becomes parameters:

- **Network.** The network is a function `transport` from an HTTP request
  (method, URL, headers, JSON payload, timeout) to either a response
  (status, text) or a transport failure. `raise_for_status` is modelled as
  failing for statuses 400 to 599.
- **Language model.** The model is a function `generate` from a prompt to
  either a reply text or an exception.
- **Configuration.** The configuration is a value (`Settings`, `Config`).

The command-line code calls some things that the other modules do not
define: `analyze_code_changes` with two arguments, and `get_pr_metadata`.
It also reads settings as attributes of the `config` module rather than
of the `config` instance. These collaborators are therefore function
parameters (`Collaborators`), and the settings are the instance's values.

Stateful operations are methods on classes that work step by step, as the source does. They are specified in one of two ways:

- The loops (`run_batch_analysis`, `main`) and the two entry points are each proved equal to a pure function (`Records`, `Reports`, `Posts`, `BatchSpec`, `MainSpec`). The properties are proved as lemmas about those functions.
- The setters and factories (`set_repository`, `create_service`, `get_analysis_engine`, `initialize_services`) state the new state directly in their postconditions.

The two loops of `main.py` are written the same way:

- A `Run` value gathers what one loop depends on: what the configured client returns for each PR's diff and comment, the analyser, the metadata lookup and the clock.
- `Drives` states that the orchestrator's `GitHubService` object answers exactly as the run says.
- Each pass of a loop is a method proved to extend the records (or reports) and posts of the PRs before it to those of one more PR.

## Model

| member | source | states |
|---|---|---|
| Text.StripSurroundingSpace | app.py:25 | Whitespace (space, `\t` to `\r`, `\x1c` to `\x1f`) added around any text does not change what `str.strip` returns |
| Text.ContainsIff | main.py:49 | Python's `in` on strings holds exactly when the substring occurs at some index |
| Text.IntRoundTrip | main.py:126 | `int()` reads back the decimal rendering of every integer, sign included |
| Text.IntToStringInjective | git_services.py:36 | Different integers render as different decimal texts, so different PR numbers give different URLs |
| Text.LowerMatchesCaseVariants | git_services.py:75 | Lower-casing a name gives a lower-case word exactly when the name is a case variant of that word |
| GithubUrl.MatchPathOf | app.py:24-29 | After the host, `owner/repo/pull/<digits>` followed by anything that does not start with a digit is matched with exactly those groups and the digits' value |
| GithubUrl.MatchPullUrlCorrect | app.py:24-28 | The scanner succeeds with (owner, repo, number) exactly when the text starts with `https://`, an optional `www.`, `github.com/`, a non-empty run of `[A-Za-z0-9_-]`, `/`, another such run, `/pull/` and one or more digits; the groups are those runs and the number is the digits' value |
| GithubUrl.ValidateGithubUrl | app.py:16-31 | An empty URL fails with "URL must be a non-empty string."; every other failure carries the format message |
| GithubUrl.ValidateMatchesPattern | app.py:21-29 | A URL is accepted with given groups exactly when it is non-empty and its stripped form has the pattern's shape for those groups |
| GithubUrl.ValidNamesAreSlugs | app.py:24-29 | A validated owner and repo are non-empty and use only letters, digits, `_` and `-` |
| GithubUrl.ValidateRoundTrip | app.py:24-29 | Every URL built from the pattern's parts (with or without `www.`, any digit string) validates to those parts and the digits' value |
| GithubUrl.ValidateAnyNumber | app.py:24-29 | The canonical URL of any owner, repo and PR number validates back to that triple |
| GithubUrl.ValidateIgnoresSurroundingSpace | app.py:25 | Whitespace added around a non-empty URL never changes the outcome |
| GithubUrl.ValidateIgnoresSuffix | app.py:25-29 | `re.match` anchors only at the start: anything after the digits that does not start with a digit is ignored |
| GithubUrl.ValidateRejectsBlank | app.py:21-31 | A whitespace-only URL is non-empty and so passes the first check, then fails with the format message |
| GithubUrl.AcceptedUrlHost | app.py:24-25 | Every accepted URL, once stripped, starts with `https://github.com/` or `https://www.github.com/` |
| GithubUrl.RejectsWithoutPullSegment | app.py:24-31 | When the repo name is followed by neither a name character nor `/pull/` and a digit, the pattern does not match |
| GitServices.RequestShapes | git_services.py:35-57 | The diff request is a GET of `https://api.github.com/repos/<owner>/<repo>/pulls/<n>` with the token header and the diff media type; the comment request is a POST to `.../issues/<n>/comments` with the JSON media type and the payload `{"body": comment}`; a missing owner, repo or token renders as `None` |
| GitServices.RequestsDistinguishPullRequests | git_services.py:35-50 | Two different PR numbers of one repository never share a diff URL or a comment URL |
| GitServices.DiffOutcome | git_services.py:41-47 | A delivered response gives its text; an error status or a transport failure gives `None` |
| GitServices.GitHubService.constructor | git_services.py:11-33 | A fresh client has no owner or repo and takes the configured token and timeout |
| GitServices.GitHubService.SetRepository | git_services.py:17-19 | Sets owner and repo and leaves token and timeout unchanged |
| GitServices.GitHubService.GetPullRequestDiff | git_services.py:35-47 | The response text when the request is delivered, `None` otherwise; no exception escapes |
| GitServices.GitHubService.PostReviewComment | git_services.py:49-63 | `true` exactly when the comment request is delivered |
| GitServices.LookupProviderIff | git_services.py:67-75 | The lookup succeeds exactly for case variants of `github`, and then yields the GitHub provider |
| GitServices.OtherProvidersUnsupported | git_services.py:67-71 | `gitlab` and `bitbucket` are not registered |
| GitServices.CreateService | git_services.py:73-79 | Succeeds exactly for case variants of `github`, with a fresh unconfigured client; otherwise fails with "Unsupported git server: <name>" |
| GitServices.GetGitService | git_services.py:81-82 | The factory's result; the default server is `github` |
| GitServices.DefaultServerSupported | git_services.py:81-82 | The default server name is supported |
| Analysis.NewAnalysisEngine | analysis_engine.py:11-15 | Construction fails with "Gemini API key is not configured." exactly when the key is missing or empty; otherwise the engine uses the `gemini-1.5-flash` model and records the key the SDK is configured with |
| Analysis.PromptEmbedsDiff | analysis_engine.py:17-38 | The diff can be recovered from the prompt, which is the fixed rubric, the opening fence, the diff and the closing fence |
| Analysis.PromptInjective | analysis_engine.py:17-38 | Different diffs give different prompts |
| Analysis.AnalyzeCodeChanges | analysis_engine.py:40-59 | An empty diff or a model exception gives a result starting with "Error:"; a successful model reply to the diff's prompt is returned unchanged; a result not starting with "Error:" is the model's reply to that prompt |
| Analysis.EmptyDiffSkipsModel | analysis_engine.py:42-44 | An empty diff gives the empty-diff message without consulting the model |
| Analysis.ModelSeesOnlyItsPrompt | analysis_engine.py:46-55 | The result depends on the model only through its reply to the diff's prompt |
| Analysis.ModelFailureMessageFixed | analysis_engine.py:57-59 | A model exception gives the fixed failure message |
| Analysis.EngineSlot.GetAnalysisEngine | analysis_engine.py:61-68 | Returns the cached engine when there is one; otherwise builds, caches and returns a fresh one, or fails and leaves the slot empty |
| Analysis.EngineSlot.GetTwice | analysis_engine.py:61-68 | Once a call succeeds, a later call returns the same instance |
| AnalyzeEndpoint.ValidateField | app.py:54-57 | A non-string JSON value fails with the empty-URL message; every failure carries one of the validator's two messages |
| AnalyzeEndpoint.HandleAnalyze | app.py:43-93 | The status is 200, 400, 404, 413 or 500, and it is 200 exactly when the body carries feedback |
| AnalyzeEndpoint.ReviewPullRequest | app.py:62-86 | After validation the status is 200, 404, 413 or 500, and it is 200 exactly when the body carries feedback |
| AnalyzeEndpoint.HandleValidUrl | app.py:54-62 | A body whose URL validates is answered by the review steps for the parsed owner, repo and number |
| AnalyzeEndpoint.MissingUrlIsBadRequest | app.py:50-52 | A falsy JSON document (`null`, `{}`, `[]`, `""`, `0`, `false`), or a JSON object without `pull_request_url`, gets a 400 with the missing-field message |
| AnalyzeEndpoint.InvalidUrlRejectedBeforeFetch | app.py:56-60 | An invalid URL gets a 400 with the validator's message, whatever the network and the model would do |
| AnalyzeEndpoint.FetchFailureIsNotFound | app.py:65-68 | A diff fetch that is not delivered gets a 404 with the fetch-failure message |
| AnalyzeEndpoint.DiffSizeLimit | app.py:70-71 | A 413 is given exactly when the diff is longer than `MAX_DIFF_SIZE`, naming both sizes; a diff of exactly that length is accepted |
| AnalyzeEndpoint.EmptyDiffIsServerError | app.py:65-77 | An empty diff delivered with any non-error status gets a 500 with the engine's empty-diff message |
| AnalyzeEndpoint.ErrorLookingReplyIsServerError | app.py:74-77 | A model reply that starts with "Error:" is answered with a 500 carrying that reply |
| AnalyzeEndpoint.OkResponseContents | app.py:49-86 | A 200 means every check passed. The feedback is the model's reply to the diff's prompt, it does not start with "Error:", and the metadata is `owner/repo` with the parsed number. |
| AnalyzeEndpoint.CanonicalUrlReviewed | app.py:43-86 | End to end: the canonical URL of any pull request, a diff delivered with any non-error status and within the limit, and a model reply give a 200 with that reply, `owner/repo` and the number |
| AnalyzeEndpoint.DistinctPullRequestsDistinctUrls | app.py:57-65 | Two validated pull requests are fetched from the same URL only when they are the same pull request |
| Orchestration.FetchPrDiffCases | main.py:25-36 | A missing or empty diff gives `None`; any other diff is passed on unchanged |
| Orchestration.ReviewExtensionCases | main.py:41-45 | `comprehensive` selects the architectural sentence, `security` the security sentence, and any other depth the empty string, each in both directions |
| Orchestration.AnalyzeChangesRejects | main.py:38-54 | `None` exactly when the analyser's answer contains "Unable to analyze" or "Analysis failed" (case-sensitive) at some index; otherwise the answer unchanged |
| Orchestration.ReportMetadata | main.py:66-76 | The report's metadata is empty exactly when none (or an empty map) was found, and otherwise is the map found |
| Orchestration.ProcessPrCases | main.py:91-99 | A PR is unfetched exactly when its diff is missing or empty, and reviewed exactly when the analyser's answer to the diff is non-empty and free of the failure markers; the review is that answer |
| Orchestration.BatchRecordCases | main.py:91-102 | A record is "Could not fetch diff" exactly when the fetch fails, "Analysis failed" exactly when the analysis is rejected or empty, and a success exactly when the PR is reviewed, carrying that PR's report |
| Orchestration.FetchFailureSkipsAnalysis | main.py:91-94 | After a failed fetch the analyser is not consulted |
| Orchestration.PrSteps | main.py:91-108 | A failed PR gets a failure record and no post; a reviewed PR gets its report and one post of its analysis |
| Orchestration.PRReviewOrchestrator.constructor | main.py:10-13 | A new orchestrator has no client and no engine |
| Orchestration.PRReviewOrchestrator.InitializeServices | main.py:15-23 | Succeeds exactly when the server name is supported and an engine exists or can be built. For a supported name the client is fresh and pointed at the configured repository, even when the engine step then fails. On failure the engine field is unchanged. A cached engine stays in the slot; otherwise, for a supported name, the slot holds a fresh engine exactly when the key is configured and stays empty when construction fails. |
| Orchestration.ConfiguredClientDrives | main.py:17-18 | A client pointed at the configured repository with the configured token and timeout fetches and posts exactly as the run built from that configuration says |
| Orchestration.ReviewPr | main.py:91-108 | One pass of either loop, done with the orchestrator's client, yields that PR's `BatchRecordOf` record and `PostOf` post |
| Orchestration.RecordStep | main.py:86-108 | Pass `i` of the batch loop extends the records and posts of the first `i` PRs to those of the first `i + 1` |
| Orchestration.RecordEach | main.py:84-110 | The batch loop's records and posts are `Records` and `Posts` of the PR list, using the orchestrator's client |
| Orchestration.RunBatchAnalysis | main.py:78-110 | Returns `False` when initialisation fails; otherwise the records and posts of every PR. The engine slot ends as `initialize_services` leaves it. |
| Orchestration.RecordsAppend | main.py:84-102 | The records for `p + q` are those for `p` followed by those for `q` |
| Orchestration.RecordsIgnorePostReplies | main.py:91-108 | The records depend on the network only through the diff requests: whether a post succeeds never changes a status |
| Orchestration.BatchOneRecordPerPr | main.py:78-102 | `False` exactly when initialisation fails, with nothing posted; otherwise exactly one record per PR, with PR numbers in input order |
| Orchestration.SelectPrNumbers | main.py:126 | The list is non-empty only when `PR_NUMBER` is set. A crash happens only when `--pr-numbers` is absent and `PR_NUMBER` is not an integer literal, and it carries `int()`'s message. |
| Orchestration.CliIgnoredWithoutEnvPr | main.py:126 | Because the conditional expression binds loosest, an unset or empty `PR_NUMBER` gives the empty list even when `--pr-numbers` is given |
| Orchestration.EnvPrNumberUsed | main.py:126 | With `PR_NUMBER` set, `--pr-numbers` wins; without that option, the number in `PR_NUMBER` is used |
| Orchestration.ParsedEnvPrNumber | main.py:126 | With `PR_NUMBER` holding an integer literal, `--pr-numbers` wins when given and that integer is used otherwise |
| Orchestration.ReportStep | main.py:145-167 | Pass `i` of `main`'s loop extends the reports and posts of the first `i` PRs to those of the first `i + 1` |
| Orchestration.ReportEach | main.py:143-167 | `main`'s loop collects `Reports` of the PR list, the reports of the reviewed PRs, and makes the posts `Posts` |
| Orchestration.RunMain | main.py:112-177 | Exit 2 for an argument outside argparse's choices; a crash when `int()` fails; exit 1 for an empty PR list or a failed initialisation; otherwise exit 0 with the reports. The engine slot is untouched before initialisation and ends as `initialize_services` leaves it. |
| Orchestration.ReportsAreSuccessReports | main.py:143-158 | `main`'s reports are exactly the reports of the successful records the batch loop builds for the same run, in order |
| Orchestration.SuccessReportsAppend | main.py:143-158 | Keeping the successful reports commutes with concatenation, so order is preserved |
| Orchestration.ReportsOfConcatenation | main.py:143-158 | The reports for `p + q` are those for `p` followed by those for `q` |
| Orchestration.ReportsAreReviewed | main.py:148-158 | Every report belongs to a PR of the list that was reviewed, and is built from that PR's analysis, metadata and timestamp |
| Orchestration.ReviewedIsReported | main.py:145-158 | Every reviewed PR of the list has a report |
| Orchestration.ReportedIff | main.py:145-158 | A PR gets a report exactly when it is in the list and both its fetch and its analysis succeed |
| Orchestration.PostsFollowReports | main.py:145-167 | Each report is posted exactly once, for the same PR, with the analysis as the comment, in the same order |
| Orchestration.MainNeedsEnvPrNumber | main.py:126-130 | An unset `PR_NUMBER` makes `main` exit with 1 having posted nothing |
| Orchestration.MainSuccess | main.py:126-177 | Exit 0 implies a non-empty selection, set `PR_NUMBER` and working services; exactly the reviewed PRs are reported, and there are as many posts as reports |

## Left out

- **Not modelled:**
  - Flask routing, `jsonify`, the `/` and `/health` routes, and the `__main__` blocks.
  - The request id: MD5 of the time and the remote address, used only in log lines.
  - Logging, console output, and the JSON and file output modes of `main`.
  - argparse's help text and usage messages. An argument outside its choices is modelled only as exit status 2.
- **JSON bodies.** A JSON body is either falsy, or an object whose values are strings or something else. Two kinds of truthy non-object body are not modelled:
  - A top-level JSON array or string that contains `pull_request_url`.
  - A truthy scalar such as `5`, `true` or `1.5`. For these, `'pull_request_url' not in data` raises `TypeError`, which the generic handler answers with a 500.
- AnalyzeEndpoint.MissingUrlIsBadRequest: covers only bodies that parse as JSON. A request that is not JSON, or whose JSON is malformed, makes `request.get_json()` raise before any check. Depending on the Werkzeug version, that gives a 415 (caught by the generic handler as a 500) or Werkzeug's own 400. This is not modelled.
- **Transport and exceptions.**
  - The network and the Gemini SDK's `generate_content` are abstract functions. A request either yields a response or fails with a `RequestException`, and the model either replies or raises.
  - `genai.configure`, which sets process-wide SDK state, is not modelled.
  - Because these collaborators are functions, the network and the analyser answer the same request the same way every time. A PR number listed twice in one run therefore gets the same fetch, analysis and post outcome both times. `ReportedIff` and `MainSuccess` rely on this for repeated PR numbers.
  - Exceptions other than `RequestException` in the client are not modelled, and neither are exceptions that escape `response.text`.
- **Python text semantics.** Python's Unicode whitespace, Unicode digits and Unicode lower-casing are modelled on ASCII only. So are the characters `\d` accepts. Underscores inside `int()` literals are not modelled.
- **`int()` digit limit.** Recent CPython versions refuse to convert a string of more than 4300 digits with `int()`, raising a `ValueError` with its own message (3.11 and later, and the 3.10.7 and 3.9.14 security releases). The limit can be changed through `PYTHONINTMAXSTRDIGITS`, and it also applies to `str()` of such an integer. The model has no such limit, which affects these members:
- GithubUrl.ValidateGithubUrl: accepts PR numbers of any length. Past the limit, `int(pr_number_str)` at app.py:29 raises, and app.py:59 answers 400 with the limit message. This is a third failure message the contract does not list.
- AnalyzeEndpoint.ValidateField: does not include the limit message among the failure messages.
- GithubUrl.ValidateAnyNumber, GithubUrl.ValidateRoundTrip, GithubUrl.ValidateMatchesPattern, GithubUrl.ValidateIgnoresSuffix and AnalyzeEndpoint.CanonicalUrlReviewed: accept numbers of more than 4300 digits, which the source rejects.
- Text.ParseInt and Text.IntRoundTrip: read back integers of any length.
- Orchestration.SelectPrNumbers, Orchestration.EnvPrNumberUsed and Orchestration.ParsedEnvPrNumber: select a `PR_NUMBER` longer than 4300 digits where main.py:126 crashes.
- **`int()` message.** `InvalidLiteralMessage` quotes the text with plain single quotes, which matches Python's `repr` only for strings without quotes or escapes.
- **Command-line collaborators.** In `main.py`:
  - the analyser (called with two arguments) is a collaborator;
  - so is the metadata lookup (`get_pr_metadata`, which `GitHubService` does not define);
  - the repository, token, timeout, key and `PR_NUMBER` settings are the `config` instance's values. As written, `main.py` reads them as attributes of the `config` module, which defines only that instance.

  The model therefore does not show the `AttributeError` and `TypeError` these mismatches raise at run time.
- **Timestamps.** `datetime.now()` is a collaborator that maps a PR number to a timestamp. So two reports for the same PR number in one run share a timestamp in the model.
- **`GitService` base class.** The abstract base class is folded into `GitHubService`. Its abstract methods have no behaviour of their own. `self.base_url` is the same constant for every client and is never reassigned, so the requests are built from the constant `GitHubApiBase` rather than from a field.
- **Engine in the handler.** The handler's engine is available exactly when the Gemini key is configured. Configuration makes that key mandatory, and a cached engine can only exist if the same key was configured. A construction failure would reach the generic handler and give a 500, which is what the model gives.
- **Global state.**
  - The engine singleton is an explicit `EngineSlot` object passed to the code that uses it.
  - Module-level globals and concurrent requests sharing it are not modelled.

/** git_services.py: the GitHub client and the provider factory.

    HTTP is not performed here. A request is a value (`HttpRequest`), and
    the network is an oracle `transport` that maps a request to what
    `requests` would produce: a response with a status code and a body, or
    a transport-level `RequestException`. */
module GitServices {
  import opened Wrappers
  import opened Text

  const GitHubApiBase := "https://api.github.com"
  const DiffMediaType := "application/vnd.github.v3.diff"
  const JsonMediaType := "application/vnd.github.v3+json"
  const DefaultGitServer := "github"

  datatype HttpMethod = Get | Post

  datatype HttpRequest = HttpRequest(
    verb: HttpMethod,
    url: string,
    headers: map<string, string>,
    json: Option<map<string, string>>,
    timeout: int)

  datatype TransportOutcome = Responded(status: int, text: string) | RequestFailed

  /** The call returned and `raise_for_status()` did not raise: it raises
      for every 4xx and 5xx status. */
  predicate Delivered(o: TransportOutcome) {
    o.Responded? && !(400 <= o.status < 600)
  }

  /** How an f-string renders an optional setting: `None` prints as "None". */
  function Rendered(v: Option<string>): (r: string) {
    match v
    case Some(s) => s
    case None => "None"
  }

  function RepoUrl(owner: Option<string>, repoName: Option<string>): (r: string) {
    GitHubApiBase + "/repos/" + Rendered(owner) + "/" + Rendered(repoName)
  }

  function AuthHeaders(token: Option<string>, accept: string): (r: map<string, string>) {
    map["Authorization" := "token " + Rendered(token), "Accept" := accept]
  }

  /** The request `get_pull_request_diff` sends. */
  function DiffRequest(owner: Option<string>, repoName: Option<string>, token: Option<string>, timeout: int, prNumber: int): (r: HttpRequest) {
    HttpRequest(Get, RepoUrl(owner, repoName) + "/pulls/" + IntToString(prNumber), AuthHeaders(token, DiffMediaType), None, timeout)
  }

  /** The request `post_review_comment` sends. */
  function CommentRequest(owner: Option<string>, repoName: Option<string>, token: Option<string>, timeout: int, prNumber: int, comment: string): (r: HttpRequest) {
    HttpRequest(Post, RepoUrl(owner, repoName) + "/issues/" + IntToString(prNumber) + "/comments",
                AuthHeaders(token, JsonMediaType), Some(map["body" := comment]), timeout)
  }

  /** The diff is read with a GET from the pull request's own endpoint and
      the comment is posted to the issue of the same number, both with the
      configured token; a missing owner or repository renders as "None". */
  lemma RequestShapes(owner: Option<string>, repoName: Option<string>, token: Option<string>, timeout: int, prNumber: int, comment: string)
    ensures var r := DiffRequest(owner, repoName, token, timeout, prNumber);
            && r.verb == Get && r.json == None && r.timeout == timeout
            && r.headers == map["Authorization" := "token " + Rendered(token), "Accept" := DiffMediaType]
            && r.url == GitHubApiBase + "/repos/" + Rendered(owner) + "/" + Rendered(repoName) + "/pulls/" + IntToString(prNumber)
    ensures var r := CommentRequest(owner, repoName, token, timeout, prNumber, comment);
            && r.verb == Post && r.json == Some(map["body" := comment]) && r.timeout == timeout
            && r.headers == map["Authorization" := "token " + Rendered(token), "Accept" := JsonMediaType]
            && r.url == GitHubApiBase + "/repos/" + Rendered(owner) + "/" + Rendered(repoName) + "/issues/" + IntToString(prNumber) + "/comments"
  {
  }

  /** Two pull requests of one repository never share a diff URL or a
      comment URL. */
  lemma RequestsDistinguishPullRequests(owner: Option<string>, repoName: Option<string>, token: Option<string>, timeout: int,
                                        a: int, b: int, comment: string)
    requires a != b
    ensures DiffRequest(owner, repoName, token, timeout, a).url != DiffRequest(owner, repoName, token, timeout, b).url
    ensures CommentRequest(owner, repoName, token, timeout, a, comment).url
            != CommentRequest(owner, repoName, token, timeout, b, comment).url
  {
    var base := RepoUrl(owner, repoName);
    var da, db := IntToString(a), IntToString(b);
    if DiffRequest(owner, repoName, token, timeout, a).url == DiffRequest(owner, repoName, token, timeout, b).url {
      MiddleCancels(base + "/pulls/", da, db, []);
      IntToStringInjective(a, b);
    }
    if CommentRequest(owner, repoName, token, timeout, a, comment).url
       == CommentRequest(owner, repoName, token, timeout, b, comment).url {
      MiddleCancels(base + "/issues/", da, db, "/comments");
      IntToStringInjective(a, b);
    }
  }

  lemma MiddleCancels(p: string, x: string, y: string, q: string)
    requires p + x + q == p + y + q
    ensures x == y
  {
    var u := p + x + q;
    assert |x| == |y|;
    assert x == u[|p|..|p| + |x|] == y;
  }

  /** The diff fetch's failure mapping: the response text, or `None` for
      any `RequestException`. */
  function DiffOutcome(o: TransportOutcome): (r: Option<string>)
    ensures r.Some? <==> Delivered(o)
    ensures r.Some? ==> r.value == o.text
  {
    if Delivered(o) then Some(o.text) else None
  }

  /** A GitHub client. `GitService.__init__` and `GitHubService.__init__`
      are folded into one constructor, the token and timeout coming from
      configuration. `self.base_url` is set once to the same value for
      every client and never changed, so the requests use the constant
      `GitHubApiBase` in its place. */
  class GitHubService {
    var owner: Option<string>
    var repoName: Option<string>
    var token: Option<string>
    var timeout: int

    constructor (token: Option<string>, timeout: int)
      ensures owner == None && repoName == None
      ensures this.token == token && this.timeout == timeout
    {
      owner := None;
      repoName := None;
      this.token := token;
      this.timeout := timeout;
    }

    /** Points the client at a repository and changes nothing else. */
    method SetRepository(owner: Option<string>, repoName: Option<string>)
      modifies this
      ensures this.owner == owner && this.repoName == repoName
      ensures token == old(token) && timeout == old(timeout)
    {
      this.owner := owner;
      this.repoName := repoName;
    }

    /** `get_pull_request_diff`: the diff text, or `None` when the request
        raised; nothing propagates. */
    function GetPullRequestDiff(prNumber: int, transport: HttpRequest -> TransportOutcome): (r: Option<string>)
      reads this
      ensures r.Some? <==> Delivered(transport(DiffRequest(owner, repoName, token, timeout, prNumber)))
      ensures r.Some? ==> r.value == transport(DiffRequest(owner, repoName, token, timeout, prNumber)).text
    {
      DiffOutcome(transport(DiffRequest(owner, repoName, token, timeout, prNumber)))
    }

    /** `post_review_comment`: `True` when the POST went through, `False`
        when it raised. */
    function PostReviewComment(prNumber: int, comment: string, transport: HttpRequest -> TransportOutcome): (posted: bool)
      reads this
      ensures posted <==> Delivered(transport(CommentRequest(owner, repoName, token, timeout, prNumber, comment)))
    {
      Delivered(transport(CommentRequest(owner, repoName, token, timeout, prNumber, comment)))
    }
  }

  // ---------------------------------------------------------------------------
  // The factory
  // ---------------------------------------------------------------------------

  datatype Provider = GitHub

  /** `GitServiceFactory._services`: the GitLab and Bitbucket entries are
      commented out in the source, so only "github" is registered. */
  const Services: map<string, Provider> := map["github" := GitHub]

  function UnsupportedMessage(gitServer: string): (r: string) {
    "Unsupported git server: " + gitServer
  }

  /** `_services.get(git_server.lower())` */
  function LookupProvider(gitServer: string): (r: Option<Provider>) {
    var key := Lower(gitServer);
    if key in Services then Some(Services[key]) else None
  }

  /** The lookup accepts exactly the spellings of "github" in any case. */
  lemma LookupProviderIff(gitServer: string)
    ensures LookupProvider(gitServer).Some? <==> IsCaseVariant(gitServer, "github")
    ensures LookupProvider(gitServer).Some? ==> LookupProvider(gitServer).value == GitHub
  {
    LowerMatchesCaseVariants(gitServer, "github");
  }

  lemma OtherProvidersUnsupported()
    ensures LookupProvider("gitlab") == None && LookupProvider("bitbucket") == None
  {
    LookupProviderIff("gitlab");
    assert "gitlab"[3] != "github"[3] && "gitlab"[3] != UpperChar("github"[3]);
    LookupProviderIff("bitbucket");
  }

  /** `GitServiceFactory.create_service` */
  method CreateService(gitServer: string, token: Option<string>, timeout: int) returns (r: Result<GitHubService, string>)
    ensures r.Success? <==> LookupProvider(gitServer).Some?
    ensures r.Failure? ==> r.error == UnsupportedMessage(gitServer)
    ensures r.Success? ==> fresh(r.value) && r.value.owner == None && r.value.repoName == None
    ensures r.Success? ==> r.value.token == token && r.value.timeout == timeout
  {
    match LookupProvider(gitServer)
    case None =>
      r := Failure(UnsupportedMessage(gitServer));
    case Some(GitHub) =>
      var service := new GitHubService(token, timeout);
      r := Success(service);
  }

  /** `get_git_service`, whose provider name defaults to "github". */
  method GetGitService(token: Option<string>, timeout: int, gitServer: string := DefaultGitServer) returns (r: Result<GitHubService, string>)
    ensures r.Success? <==> LookupProvider(gitServer).Some?
    ensures r.Failure? ==> r.error == UnsupportedMessage(gitServer)
    ensures r.Success? ==> fresh(r.value) && r.value.owner == None && r.value.repoName == None
    ensures r.Success? ==> r.value.token == token && r.value.timeout == timeout
  {
    r := CreateService(gitServer, token, timeout);
  }

  lemma DefaultServerSupported()
    ensures LookupProvider(DefaultGitServer) == Some(GitHub)
  {
    LookupProviderIff(DefaultGitServer);
  }
}

/** `validate_github_url` (app.py): the gate that turns a submitted pull
    request URL into `(owner, repo, pr_number)`.

    The source matches `https://(www\.)?github\.com/([a-zA-Z0-9_-]+)/([a-zA-Z0-9_-]+)/pull/(\d+)`
    with `re.match` on the stripped input, so the match is anchored at the
    start only and anything may follow the digits. The regex is modelled by
    `MatchPullUrl`, a hand-written scanner; `MatchesPattern` states the
    pattern declaratively and `MatchPullUrlCorrect` proves the two agree. */
module GithubUrl {
  import opened Wrappers
  import opened Text

  /** A validated pull request reference. */
  datatype PrRef = PrRef(owner: string, repo: string, number: nat)

  const Scheme := "https://"
  const Www := "www."
  const Host := "github.com/"
  const PullSegment := "/pull/"

  const EmptyUrlMessage := "URL must be a non-empty string."
  const FormatMessage := "Invalid GitHub PR URL format. Expected: https://github.com/owner/repo/pull/123"

  /** The character class `[a-zA-Z0-9_-]` of owner and repository names. */
  predicate IsSlugChar(c: char) {
    'a' <= c <= 'z' || 'A' <= c <= 'Z' || '0' <= c <= '9' || c == '_' || c == '-'
  }

  /** `[a-zA-Z0-9_-]+` */
  predicate IsSlug(s: string) {
    s != [] && forall i :: 0 <= i < |s| ==> IsSlugChar(s[i])
  }

  /** The pieces of a string the pattern accepts: the optional `www.`, the
      two names, the digits, and whatever follows the (greedy) digit run. */
  predicate PullUrlParts(www: string, owner: string, repo: string, digits: string, rest: string) {
    && (www == [] || www == Www)
    && IsSlug(owner)
    && IsSlug(repo)
    && IsDigits(digits)
    && (rest == [] || !IsDigit(rest[0]))
  }

  function PullUrl(www: string, owner: string, repo: string, digits: string, rest: string): (r: string) {
    Scheme + (www + (Host + (owner + ("/" + (repo + (PullSegment + (digits + rest)))))))
  }

  /** The part of a URL that the pattern consumes, up to the last digit. */
  function MatchedPart(www: string, owner: string, repo: string, digits: string): (r: string) {
    Scheme + (www + (Host + (owner + ("/" + (repo + (PullSegment + digits))))))
  }

  lemma PullUrlSplit(www: string, owner: string, repo: string, digits: string, rest: string)
    ensures PullUrl(www, owner, repo, digits, rest) == MatchedPart(www, owner, repo, digits) + rest
  {
    var a := PullSegment + digits;
    assert PullSegment + (digits + rest) == a + rest;
    var b := repo + a;
    assert repo + (a + rest) == b + rest;
    var c := "/" + b;
    assert "/" + (b + rest) == c + rest;
    var d := owner + c;
    assert owner + (c + rest) == d + rest;
    var e := Host + d;
    assert Host + (d + rest) == e + rest;
    var f := www + e;
    assert www + (e + rest) == f + rest;
    assert Scheme + (f + rest) == (Scheme + f) + rest;
  }

  /** The URL the source's error message shows as the expected shape. */
  function CanonicalPullUrl(owner: string, repo: string, number: nat): (r: string) {
    PullUrl([], owner, repo, NatToString(number), [])
  }

  /** `s` is accepted by the pattern, and its groups give `ref`. */
  ghost predicate MatchesPattern(s: string, ref: PrRef) {
    exists www, digits, rest ::
      && PullUrlParts(www, ref.owner, ref.repo, digits, rest)
      && ref.number == DigitsValue(digits)
      && s == PullUrl(www, ref.owner, ref.repo, digits, rest)
  }

  // ---------------------------------------------------------------------------
  // The scanner, one regex piece at a time
  // ---------------------------------------------------------------------------

  /** `https://(www\.)?github\.com/`: the text after it. The alternatives
      differ in their first character (`w` against `g`), so trying `www.`
      first and falling back is the regex's own backtracking. */
  function AfterHost(s: string): (r: Option<string>) {
    if !StartsWith(s, Scheme) then None
    else
      var a := s[|Scheme|..];
      var h := if StartsWith(a, Www) then a[|Www|..] else a;
      if StartsWith(h, Host) then Some(h[|Host|..]) else None
  }

  /** The optional group that `AfterHost` consumed. */
  function WwwOf(s: string): (r: string)
    requires StartsWith(s, Scheme)
  {
    if StartsWith(s[|Scheme|..], Www) then Www else []
  }

  lemma AfterHostOf(www: string, path: string)
    requires www == [] || www == Www
    ensures AfterHost(Scheme + (www + (Host + path))) == Some(path)
  {
    var s := Scheme + (www + (Host + path));
    assert s[..|Scheme|] == Scheme;
    assert s[|Scheme|..] == www + (Host + path);
    if www == Www {
      assert (www + (Host + path))[..|Www|] == Www;
      assert (www + (Host + path))[|Www|..] == Host + path;
    } else {
      assert www + (Host + path) == Host + path;
      assert !StartsWith(Host + path, Www) by {
        assert (Host + path)[..|Www|][0] == 'g';
      }
    }
    assert (Host + path)[..|Host|] == Host;
    assert (Host + path)[|Host|..] == path;
  }

  lemma AfterHostSound(s: string)
    requires AfterHost(s).Some?
    ensures StartsWith(s, Scheme) && s == Scheme + (WwwOf(s) + (Host + AfterHost(s).value))
  {
    var a := s[|Scheme|..];
    assert s == Scheme + a;
    var h := a[|WwwOf(s)|..];
    assert a == WwwOf(s) + h;
    assert h == Host + h[|Host|..];
  }

  /** `([a-zA-Z0-9_-]+)` followed by the literal `sep`: the name and the
      text after `sep`. */
  function SlugThen(s: string, sep: string): (r: Option<(string, string)>)
    ensures r.Some? ==> IsSlug(r.value.0)
  {
    var name := TakeWhile(s, IsSlugChar);
    if name != [] && StartsWith(s[|name|..], sep) then Some((name, s[|name| + |sep|..])) else None
  }

  lemma SlugThenOf(name: string, sep: string, rest: string)
    requires IsSlug(name) && sep != [] && !IsSlugChar(sep[0])
    ensures SlugThen(name + (sep + rest), sep) == Some((name, rest))
  {
    TakeWhileRun(name, sep + rest, IsSlugChar);
    var s := name + (sep + rest);
    assert s[|name|..] == sep + rest;
    assert (sep + rest)[..|sep|] == sep;
    assert s[|name| + |sep|..] == rest;
  }

  lemma SlugThenSound(s: string, sep: string)
    requires SlugThen(s, sep).Some?
    ensures s == SlugThen(s, sep).value.0 + (sep + SlugThen(s, sep).value.1)
  {
    var name := TakeWhile(s, IsSlugChar);
    var after := s[|name|..];
    assert s == name + after;
    assert after == sep + after[|sep|..];
  }

  /** The pattern after the host, `([a-zA-Z0-9_-]+)/([a-zA-Z0-9_-]+)/pull/(\d+)`,
      returning groups 2, 3 and the value of group 4. Each greedy class run
      stops at the first character outside its class; since `/` is outside
      `[a-zA-Z0-9_-]`, no shorter run could be followed by the literal `/`
      either, so backtracking cannot find another match. */
  function MatchPath(path: string): (r: Option<PrRef>)
    ensures r.Some? ==> IsSlug(r.value.owner) && IsSlug(r.value.repo)
  {
    match SlugThen(path, "/")
    case None => None
    case Some((owner, afterOwner)) =>
      match SlugThen(afterOwner, PullSegment)
      case None => None
      case Some((repo, numberPart)) =>
        var digits := TakeWhile(numberPart, IsDigit);
        if digits == [] then None else Some(PrRef(owner, repo, DigitsValue(digits)))
  }

  /** `re.match` of the whole pattern against `s`. */
  function MatchPullUrl(s: string): (r: Option<PrRef>)
    ensures r.Some? ==> IsSlug(r.value.owner) && IsSlug(r.value.repo)
  {
    match AfterHost(s)
    case None => None
    case Some(path) => MatchPath(path)
  }

  lemma MatchPathOf(owner: string, repo: string, digits: string, rest: string)
    requires IsSlug(owner) && IsSlug(repo) && IsDigits(digits) && (rest == [] || !IsDigit(rest[0]))
    ensures MatchPath(owner + ("/" + (repo + (PullSegment + (digits + rest))))) == Some(PrRef(owner, repo, DigitsValue(digits)))
  {
    var numberPart := digits + rest;
    SlugThenOf(owner, "/", repo + (PullSegment + numberPart));
    SlugThenOf(repo, PullSegment, numberPart);
    TakeWhileRun(digits, rest, IsDigit);
  }

  /** Every string of the pattern's shape is matched, with the exact groups. */
  lemma MatchPullUrlOf(www: string, owner: string, repo: string, digits: string, rest: string)
    requires PullUrlParts(www, owner, repo, digits, rest)
    ensures MatchPullUrl(PullUrl(www, owner, repo, digits, rest)) == Some(PrRef(owner, repo, DigitsValue(digits)))
  {
    AfterHostOf(www, owner + ("/" + (repo + (PullSegment + (digits + rest)))));
    MatchPathOf(owner, repo, digits, rest);
  }

  /** The digit run and what follows it, as `MatchPath` splits them. */
  lemma DigitsThenRest(numberPart: string) returns (digits: string, rest: string)
    requires TakeWhile(numberPart, IsDigit) != []
    ensures digits == TakeWhile(numberPart, IsDigit) && IsDigits(digits)
    ensures numberPart == digits + rest && (rest == [] || !IsDigit(rest[0]))
  {
    digits := TakeWhile(numberPart, IsDigit);
    rest := numberPart[|digits|..];
    assert numberPart == digits + rest;
    assert rest != [] ==> rest[0] == numberPart[|digits|];
  }

  /** Whatever `MatchPullUrl` accepts has the pattern's shape. */
  lemma MatchPullUrlSound(s: string)
    requires MatchPullUrl(s).Some?
    ensures MatchesPattern(s, MatchPullUrl(s).value)
  {
    var ref := MatchPullUrl(s).value;
    var path := AfterHost(s).value;
    AfterHostSound(s);
    var www := WwwOf(s);
    var (owner, afterOwner) := SlugThen(path, "/").value;
    SlugThenSound(path, "/");
    var (repo, numberPart) := SlugThen(afterOwner, PullSegment).value;
    SlugThenSound(afterOwner, PullSegment);
    var digits, rest := DigitsThenRest(numberPart);
    assert ref == PrRef(owner, repo, DigitsValue(digits));
    assert s == PullUrl(www, owner, repo, digits, rest);
    assert PullUrlParts(www, owner, repo, digits, rest);
  }

  lemma MatchPullUrlCorrect(s: string, ref: PrRef)
    ensures MatchPullUrl(s) == Some(ref) <==> MatchesPattern(s, ref)
  {
    if MatchPullUrl(s) == Some(ref) {
      MatchPullUrlSound(s);
    }
    if MatchesPattern(s, ref) {
      var www, digits, rest :| && PullUrlParts(www, ref.owner, ref.repo, digits, rest)
                               && ref.number == DigitsValue(digits)
                               && s == PullUrl(www, ref.owner, ref.repo, digits, rest);
      MatchPullUrlOf(www, ref.owner, ref.repo, digits, rest);
    }
  }

  /** `validate_github_url`: an empty URL and a URL that does not match the
      pattern after stripping are the two `ValueError`s. */
  function ValidateGithubUrl(url: string): (r: Result<PrRef, string>)
    ensures url == [] ==> r == Failure(EmptyUrlMessage)
    ensures url != [] && r.Failure? ==> r.error == FormatMessage
  {
    if url == [] then Failure(EmptyUrlMessage)
    else
      match MatchPullUrl(Strip(url))
      case Some(ref) => Success(ref)
      case None => Failure(FormatMessage)
  }

  /** A URL is accepted with a given owner, repository and number exactly
      when it is non-empty and, once stripped, has the pattern's shape for
      them. */
  lemma ValidateMatchesPattern(url: string, ref: PrRef)
    ensures ValidateGithubUrl(url) == Success(ref) <==> url != [] && MatchesPattern(Strip(url), ref)
  {
    if url != [] {
      MatchPullUrlCorrect(Strip(url), ref);
    }
  }

  /** On success the names are non-empty runs of `[a-zA-Z0-9_-]`. */
  lemma ValidNamesAreSlugs(url: string)
    requires ValidateGithubUrl(url).Success?
    ensures IsSlug(ValidateGithubUrl(url).value.owner) && IsSlug(ValidateGithubUrl(url).value.repo)
  {
    ValidateMatchesPattern(url, ValidateGithubUrl(url).value);
  }

  /** A well-formed URL yields exactly its owner, repository and number. */
  lemma ValidateRoundTrip(www: string, owner: string, repo: string, digits: string)
    requires PullUrlParts(www, owner, repo, digits, [])
    ensures ValidateGithubUrl(PullUrl(www, owner, repo, digits, [])) == Success(PrRef(owner, repo, DigitsValue(digits)))
  {
    var u := PullUrl(www, owner, repo, digits, []);
    assert u[0] == 'h';
    assert u[|u| - 1] == digits[|digits| - 1];
    StripKeepsTrimmed(u);
    MatchPullUrlOf(www, owner, repo, digits, []);
  }

  /** Every number is accepted, 0 included. The model puts no upper bound
      on the number of digits (the interpreter's digit limit on `int()` is
      not modelled). */
  lemma ValidateAnyNumber(owner: string, repo: string, number: nat)
    requires IsSlug(owner) && IsSlug(repo)
    ensures ValidateGithubUrl(CanonicalPullUrl(owner, repo, number)) == Success(PrRef(owner, repo, number))
  {
    DecimalRoundTrip(number);
    ValidateRoundTrip([], owner, repo, NatToString(number));
  }

  /** Leading and trailing whitespace does not change the verdict. */
  lemma ValidateIgnoresSurroundingSpace(ws1: string, url: string, ws2: string)
    requires url != [] && AllSpace(ws1) && AllSpace(ws2)
    ensures ValidateGithubUrl(ws1 + url + ws2) == ValidateGithubUrl(url)
  {
    StripSurroundingSpace(ws1, url, ws2);
  }

  /** Matching is anchored at the start only: text after the number that
      does not begin with a digit (such as `/files`) is ignored. */
  lemma ValidateIgnoresSuffix(www: string, owner: string, repo: string, digits: string, suffix: string)
    requires PullUrlParts(www, owner, repo, digits, suffix)
    ensures ValidateGithubUrl(PullUrl(www, owner, repo, digits, suffix)) == Success(PrRef(owner, repo, DigitsValue(digits)))
  {
    var kept := StripPullUrl(www, owner, repo, digits, suffix);
    MatchPullUrlOf(www, owner, repo, digits, kept);
  }

  /** Stripping a URL of the pattern's shape only trims its suffix, which
      keeps its first character when anything of it is left. */
  lemma StripPullUrl(www: string, owner: string, repo: string, digits: string, suffix: string) returns (kept: string)
    requires PullUrlParts(www, owner, repo, digits, suffix)
    ensures PullUrlParts(www, owner, repo, digits, kept)
    ensures Strip(PullUrl(www, owner, repo, digits, suffix)) == PullUrl(www, owner, repo, digits, kept)
  {
    var head := MatchedPart(www, owner, repo, digits);
    PullUrlSplit(www, owner, repo, digits, suffix);
    assert head[0] == 'h';
    assert head[|head| - 1] == digits[|digits| - 1];
    RStripAfterNonSpace(head, suffix);
    assert LStrip(head + suffix) == head + suffix;
    kept := RStrip(suffix);
    assert kept != [] ==> kept[0] == suffix[0];
    PullUrlSplit(www, owner, repo, digits, kept);
  }

  /** A whitespace-only URL passes the emptiness test but cannot match. */
  lemma ValidateRejectsBlank(url: string)
    requires url != [] && AllSpace(url)
    ensures ValidateGithubUrl(url) == Failure(FormatMessage)
  {
    StripAllSpace(url);
  }

  /** Only `https://github.com/` and `https://www.github.com/` URLs are
      accepted: another scheme or another host is a `ValueError`. */
  lemma AcceptedUrlHost(url: string)
    requires ValidateGithubUrl(url).Success?
    ensures StartsWith(Strip(url), Scheme + Host) || StartsWith(Strip(url), Scheme + (Www + Host))
  {
    assert MatchPullUrl(Strip(url)).Some?;
    HostOfMatch(Strip(url));
  }

  lemma HostOfMatch(s: string)
    requires AfterHost(s).Some?
    ensures StartsWith(s, Scheme + Host) || StartsWith(s, Scheme + (Www + Host))
  {
    AfterHostSound(s);
    var www := WwwOf(s);
    var path := AfterHost(s).value;
    assert www + (Host + path) == (www + Host) + path;
    var prefix := Scheme + (www + Host);
    assert s == prefix + path;
    assert s[..|prefix|] == prefix;
    if www == [] {
      assert www + Host == Host;
    }
  }

  /** After `https://github.com/owner/repo`, anything other than a further
      name character or `/pull/` followed by a digit is rejected. */
  lemma RejectsWithoutPullSegment(www: string, owner: string, repo: string, tail: string)
    requires (www == [] || www == Www) && IsSlug(owner) && IsSlug(repo)
    requires tail == [] || !IsSlugChar(tail[0])
    requires !(StartsWith(tail, PullSegment) && |tail| > |PullSegment| && IsDigit(tail[|PullSegment|]))
    ensures MatchPullUrl(Scheme + (www + (Host + (owner + ("/" + (repo + tail)))))) == None
  {
    AfterHostOf(www, owner + ("/" + (repo + tail)));
    PathRejectsWithoutPullSegment(owner, repo, tail);
  }

  lemma PathRejectsWithoutPullSegment(owner: string, repo: string, tail: string)
    requires IsSlug(owner) && IsSlug(repo)
    requires tail == [] || !IsSlugChar(tail[0])
    requires !(StartsWith(tail, PullSegment) && |tail| > |PullSegment| && IsDigit(tail[|PullSegment|]))
    ensures MatchPath(owner + ("/" + (repo + tail))) == None
  {
    SlugThenOf(owner, "/", repo + tail);
    TakeWhileRun(repo, tail, IsSlugChar);
    if SlugThen(repo + tail, PullSegment).Some? {
      assert (repo + tail)[|repo|..] == tail;
      var numberPart := tail[|PullSegment|..];
      assert TakeWhile(numberPart, IsDigit) == [];
    }
  }
}

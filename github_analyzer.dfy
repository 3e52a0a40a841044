/**
 * The Flask back end's profile analyzer: extract the username, classify the
 * HTTP outcome into the exception it raises, and format the summary over the
 * decoded repository list.
 */
module GithubAnalyzer {
  import opened Wrappers
  import opened Strings
  import opened GitHub

  /** The exceptions `analyze_github_profile` lets escape; `str(e)` is `message`. */
  datatype Raised = ValueError(message: string) | ConnectionError(message: string) | RuntimeError(message: string)

  const EmptyUsername := "Could not extract a valid username from the provided URL."
  const Unexpected := "An unexpected error occurred: "
  const NoRepos := "No public repositories found for this user."
  const ProjectsHeader := "Recent Projects Summary:\n"

  /** `github_url.strip().rstrip('/').split('/')[-1]`. */
  function Username(url: string): string
  {
    LastSegment(RStrip(Strip(url), '/'), '/')
  }

  /** `response.raise_for_status()` raises for exactly these codes. */
  predicate IsHttpError(status: int)
  {
    400 <= status < 600
  }

  /** `str(e)` of the `HTTPError` that `raise_for_status` raises. */
  function HttpErrorText(r: Response): string
    requires IsHttpError(r.status)
  {
    IntToString(r.status) + (if r.status < 500 then " Client Error: " else " Server Error: ")
      + r.reason + " for url: " + r.url
  }

  /** `{repo["language"] for repo in repos if repo.get("language")}`. */
  function Languages(repos: seq<Repo>): set<string>
  {
    set i | 0 <= i < |repos| && Truthy(Get(repos[i], "language", Null)) :: Get(repos[i], "language", Null).s
  }

  /** One `- Project:` entry, with the `.get` defaults for absent keys. */
  function Entry(repo: Repo): string
  {
    "- Project: " + Show(Get(repo, "name", Str("N/A")))
      + " (Language: " + Show(Get(repo, "language", Str("N/A"))) + ")\n  "
      + "Description: " + Show(Get(repo, "description", Str("No description."))) + "\n"
  }

  /** The entries, one per repository, in list order. */
  function Entries(repos: seq<Repo>): seq<string>
  {
    seq(|repos|, i requires 0 <= i < |repos| => Entry(repos[i]))
  }

  /** The summary: the language slot (or "N/A"), then the projects section. */
  function Summary(repos: seq<Repo>): Text
  {
    Text("Key Languages Used:\n- ", Languages(repos), "N/A", "\n\n" + ProjectsHeader + Concat(Entries(repos)))
  }

  /** The `summary +=` loop over the repositories. */
  method ProjectsSection(repos: seq<Repo>) returns (summary: string)
    ensures summary == ProjectsHeader + Concat(Entries(repos))
  {
    ghost var es := Entries(repos);
    summary := ProjectsHeader;
    var i := 0;
    while i < |repos|
      invariant 0 <= i <= |repos|
      invariant summary == ProjectsHeader + Concat(es[..i])
    {
      var entry := Entry(repos[i]);
      ConcatPrefixStep(ProjectsHeader, es, i);
      summary := summary + entry;
      i := i + 1;
    }
    assert es[..i] == es;
  }

  /**
   * `analyze_github_profile(github_url)` against the GitHub API `api`.
   * Inside the `try`, the empty-username `ValueError` and any non-HTTP failure are
   * re-raised by the generic handler as `RuntimeError`; the `ValueError` (404) and
   * `ConnectionError` raised by the `HTTPError` handler escape as they are.
   */
  function Analyze(url: string, api: Api): (r: Result<Text, Raised>)
    ensures Username(url) == "" ==> r == Failure(RuntimeError(Unexpected + EmptyUsername))
    ensures (r.Failure? && r.error.ValueError?) <==>
              Username(url) != "" && api(Username(url)).Answered? && api(Username(url)).response.status == 404
    ensures (r.Failure? && r.error.ConnectionError?) <==>
              Username(url) != "" && api(Username(url)).Answered? &&
              IsHttpError(api(Username(url)).response.status) && api(Username(url)).response.status != 404
    ensures r.Failure? && r.error.ValueError? ==>
              r.error.message == "GitHub user '" + Username(url) + "' not found. Please check the URL."
    ensures r.Failure? && r.error.ConnectionError? ==>
              r.error.message == "GitHub API error: " + HttpErrorText(api(Username(url)).response)
    ensures r.Failure? && r.error.RuntimeError? ==> Unexpected <= r.error.message
    ensures Username(url) != "" && api(Username(url)).Raised? ==>
              r == Failure(RuntimeError(Unexpected + api(Username(url)).message))
    ensures Username(url) != "" && api(Username(url)).Answered? &&
            !IsHttpError(api(Username(url)).response.status) && api(Username(url)).response.body.Failure? ==>
              r == Failure(RuntimeError(Unexpected + api(Username(url)).response.body.error))
    ensures r.Success? <==>
              Username(url) != "" && api(Username(url)).Answered? &&
              !IsHttpError(api(Username(url)).response.status) &&
              api(Username(url)).response.body.Success?
    ensures r.Success? ==>
              var repos := api(Username(url)).response.body.value;
              r.value == if repos == [] then Plain(NoRepos) else Summary(repos)
  {
    var user := Username(url);
    if user == "" then Failure(RuntimeError(Unexpected + EmptyUsername))
    else
      match api(user)
      case Raised(m) => Failure(RuntimeError(Unexpected + m))
      case Answered(resp) =>
        if IsHttpError(resp.status) then
          if resp.status == 404 then Failure(ValueError("GitHub user '" + user + "' not found. Please check the URL."))
          else Failure(ConnectionError("GitHub API error: " + HttpErrorText(resp)))
        else
          match resp.body
          case Failure(m) => Failure(RuntimeError(Unexpected + m))
          case Success(repos) => if repos == [] then Success(Plain(NoRepos)) else Success(Summary(repos))
  }

  /** `strip()` removes the whitespace around a URL that ends in a non-space. */
  lemma StripAround(lead: string, a: string, tail: string, trail: string)
    requires forall i :: 0 <= i < |lead| ==> IsSpace(lead[i])
    requires forall i :: 0 <= i < |trail| ==> IsSpace(trail[i])
    requires tail != [] && !IsSpace(tail[0]) && !IsSpace(tail[|tail| - 1])
    ensures Strip(a + tail + trail) == LStripSpace(a) + tail
  {
    RStripSpaceAppended(a + tail, trail);
    LStripSpaceAppended(a, tail);
  }

  /**
   * Around a profile path, surrounding whitespace and trailing slashes are stripped
   * and the username is the last segment.
   */
  lemma {:induction false} UsernameOfProfileUrl(lead: string, prefix: string, name: string, slashes: nat, trail: string)
    requires forall i :: 0 <= i < |lead| ==> IsSpace(lead[i])
    requires forall i :: 0 <= i < |trail| ==> IsSpace(trail[i])
    requires '/' !in name && name != [] && !IsSpace(name[|name| - 1])
    ensures Username(lead + prefix + "/" + name + Repeat('/', slashes) + trail) == name
  {
    var a, r := lead + prefix, Repeat('/', slashes);
    var tail := "/" + name + r;
    AppendAssoc(a, "/", name);
    AppendAssoc(a, "/" + name, r);
    assert tail[|tail| - 1] == if slashes == 0 then name[|name| - 1] else '/';
    StripAround(lead, a, tail, trail);
    var y := LStripSpace(a);
    AppendAssoc(y, "/" + name, r);
    AppendAssoc(y, "/", name);
    RStripAppended(y + "/" + name, '/', slashes);
    LastSegmentAfter(y, '/', name);
  }

  /**
   * The entry shows the repository's language as `.get("language", "N/A")` sees it:
   * `N/A` only when the key is absent, `None` for a JSON `null`, the string otherwise.
   */
  lemma EntryShowsLanguage(repo: Repo)
    ensures "language" !in repo ==> Contains(Entry(repo), "(Language: N/A)")
    ensures "language" in repo && repo["language"] == Null ==> Contains(Entry(repo), "(Language: None)")
    ensures "language" in repo && repo["language"].Str? ==>
              Contains(Entry(repo), "(Language: " + repo["language"].s + ")")
  {
    var n := Show(Get(repo, "name", Str("N/A")));
    var l := Show(Get(repo, "language", Str("N/A")));
    var d := Show(Get(repo, "description", Str("No description.")));
    var tag := "(Language: " + l + ")";
    var q := "- Project: " + n + " (Language: " + l + ")\n  ";
    assert q == ("- Project: " + n + " ") + tag + "\n  ";
    ContainsInfix("- Project: " + n + " ", tag, "\n  ");
    ContainsBefore(q, "Description: ", tag);
    ContainsBefore(q + "Description: ", d, tag);
    ContainsBefore(q + "Description: " + d, "\n", tag);
    if "language" !in repo {
      assert "(Language: " + l + ")" == "(Language: N/A)";
    } else if repo["language"] == Null {
      assert "(Language: " + l + ")" == "(Language: None)";
    }
  }

  /** Every entry is a `- Project:` line ending with a newline. */
  lemma EntryShape(repo: Repo)
    ensures "- Project: " <= Entry(repo)
    ensures Entry(repo)[|Entry(repo)| - 1] == '\n'
  {
  }
}

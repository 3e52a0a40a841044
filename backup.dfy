/**
 * The Gradio application: a generation cache in front of the roadmap pipeline.
 * A request is validated, probed against the cache with the key
 * `goal + " | " + stack`, served from the cache when the nearest stored
 * roadmap is closer than 0.2, and otherwise generated and appended to it.
 */
module Backup {
  import opened Wrappers
  import opened Strings
  import opened GitHub
  import opened VectorStore
  import Pipeline

  const MissingFields := "\U{26A0}\U{FE0F} Error: Missing required fields: GitHub URL and Career Goal"
  const NoValidUrl := "No valid GitHub URL provided."
  const TokenMissing := "\U{26A0}\U{FE0F} GITHUB_TOKEN missing in .env file. Cannot fetch real data."
  const AnalysisError := "Error analyzing GitHub: "
  const FetchFailed := "Failed to fetch GitHub data. Status: "
  const CachePrefix := "**[Loaded from Database Cache]**\n\n"
  const ErrorPrefix := "An error occurred: "

  /** Distances strictly below this are cache hits. */
  const Threshold: real := 0.2

  // ---------------------------------------------------------------------
  // analyze_github_profile

  /** `not url or "github.com" not in url` is false. */
  predicate UrlAccepted(url: string)
  {
    url != "" && Contains(url, "github.com")
  }

  /** `url.rstrip("/").split("/")[-1]`. */
  function Username(url: string): string
  {
    LastSegment(RStrip(url, '/'), '/')
  }

  /** An accepted URL always yields a non-empty username: "github.com" is not all slashes. */
  lemma {:induction false} AcceptedUrlHasUsername(url: string)
    requires UrlAccepted(url)
    ensures Username(url) != ""
  {
    ContainsChar(url, "github.com", 0);
    var i :| 0 <= i < |url| && url[i] == 'g';
    RStripKeepsOther(url, '/', i);
    var s := RStrip(url, '/');
    assert s[|s| - 1] != '/';
  }

  /** The username of `prefix/name` followed by any number of slashes is `name`. */
  lemma {:induction false} UsernameOfProfileUrl(prefix: string, name: string, slashes: nat)
    requires '/' !in name && name != []
    ensures Username(prefix + "/" + name + Repeat('/', slashes)) == name
  {
    RStripAppended(prefix + "/" + name, '/', slashes);
    assert (prefix + "/" + name)[|prefix + "/" + name| - 1] == name[|name| - 1];
    LastSegmentAfter(prefix, '/', name);
  }

  /** `repo.get('language', 'Unknown')`. */
  function Language(repo: Repo): Value
  {
    Get(repo, "language", Str("Unknown"))
  }

  /** The `languages` set after the loop: every truthy `lang`, in the loop's order of insertion. */
  function Languages(repos: seq<Repo>): set<string>
    decreases |repos|
  {
    if repos == [] then {}
    else
      var lang := Language(repos[|repos| - 1]);
      Languages(repos[..|repos| - 1]) + (if Truthy(lang) then {lang.s} else {})
  }

  /** `repo['name']` raises `KeyError('name')` for no repository. */
  predicate AllNamed(repos: seq<Repo>)
  {
    forall i :: 0 <= i < |repos| ==> "name" in repos[i]
  }

  /** One `repo_summaries` line. */
  function RepoLine(repo: Repo): string
    requires "name" in repo
  {
    "- " + Show(repo["name"]) + " (" + Show(Language(repo)) + "): "
      + Show(Get(repo, "description", Str("No description")))
  }

  function RepoLines(repos: seq<Repo>): seq<string>
    requires AllNamed(repos)
  {
    seq(|repos|, i requires 0 <= i < |repos| => RepoLine(repos[i]))
  }

  lemma LanguagesStep(repos: seq<Repo>, i: nat)
    requires i < |repos|
    ensures Languages(repos[..i + 1]) ==
              Languages(repos[..i]) + (if Truthy(Language(repos[i])) then {Language(repos[i]).s} else {})
  {
    assert repos[..i + 1][..i] == repos[..i];
  }

  lemma RepoLinesStep(repos: seq<Repo>, i: nat)
    requires i < |repos| && forall j :: 0 <= j <= i ==> "name" in repos[j]
    ensures AllNamed(repos[..i]) && AllNamed(repos[..i + 1])
    ensures RepoLines(repos[..i + 1]) == RepoLines(repos[..i]) + [RepoLine(repos[i])]
  {
  }

  /**
   * The loop over the repositories. It stops at the first repository without a
   * `name` key (`missingName`); otherwise it has collected every truthy language
   * and one line per repository, in list order.
   */
  method SummarizeRepos(repos: seq<Repo>) returns (languages: set<string>, summaries: seq<string>, missingName: bool)
    ensures missingName <==> !AllNamed(repos)
    ensures !missingName ==> languages == Languages(repos) && summaries == RepoLines(repos)
  {
    languages, summaries, missingName := {}, [], false;
    var i := 0;
    while i < |repos|
      invariant 0 <= i <= |repos|
      invariant forall j :: 0 <= j < i ==> "name" in repos[j]
      invariant languages == Languages(repos[..i])
      invariant AllNamed(repos[..i]) && summaries == RepoLines(repos[..i])
    {
      var lang := Language(repos[i]);
      LanguagesStep(repos, i);
      if Truthy(lang) {
        languages := languages + {lang.s};
      }
      if "name" !in repos[i] {
        missingName := true;
        return;
      }
      RepoLinesStep(repos, i);
      summaries := summaries + [RepoLine(repos[i])];
      i := i + 1;
    }
    assert repos[..i] == repos;
  }

  /** What `analyze_github_profile` returns; the GitHub token is `""` when unset. */
  function Report(url: string, token: string, api: Api): Text
  {
    if !UrlAccepted(url) then Plain(NoValidUrl)
    else if token == "" then Plain(TokenMissing)
    else
      var user := Username(url);
      match api(user)
      case Raised(m) => Plain(AnalysisError + m)
      case Answered(resp) =>
        if resp.status != 200 then Plain(FetchFailed + IntToString(resp.status))
        else
          match resp.body
          case Failure(m) => Plain(AnalysisError + m)
          case Success(repos) =>
            if !AllNamed(repos) then Plain(AnalysisError + "'name'")
            else Text("User: " + user + "\nTop Languages: ", Languages(repos), "",
                      "\nRecent Repos:\n" + Join(RepoLines(repos), "\n"))
  }

  /** `analyze_github_profile(url)`: never raises; every failure becomes a message. */
  method AnalyzeProfile(url: string, token: string, api: Api) returns (t: Text)
    ensures t == Report(url, token, api)
    ensures !UrlAccepted(url) ==> t == Plain(NoValidUrl)
    ensures UrlAccepted(url) && token == "" ==> t == Plain(TokenMissing)
    ensures t.slot != {} ==> UrlAccepted(url) && token != "" && api(Username(url)).Answered?
  {
    if url == "" || !Contains(url, "github.com") {
      return Plain(NoValidUrl);
    }
    if token == "" {
      return Plain(TokenMissing);
    }
    var user := Username(url);
    match api(user) {
      case Raised(m) =>
        t := Plain(AnalysisError + m);
      case Answered(resp) =>
        if resp.status != 200 {
          t := Plain(FetchFailed + IntToString(resp.status));
        } else {
          match resp.body {
            case Failure(m) =>
              t := Plain(AnalysisError + m);
            case Success(repos) =>
              var languages, summaries, missingName := SummarizeRepos(repos);
              if missingName {
                t := Plain(AnalysisError + "'name'");
              } else {
                t := Text("User: " + user + "\nTop Languages: ", languages, "",
                          "\nRecent Repos:\n" + Join(summaries, "\n"));
              }
          }
        }
    }
  }

  /** The mock `get_market_context(goal)`. */
  function MockMarketContext(goal: string): string
  {
    "Current market analysis for '" + goal + "' indicates high demand for scalable architecture, "
      + "cloud-native deployments (AWS/Azure), and integration with AI/LLM services."
  }

  // ---------------------------------------------------------------------
  // generate_roadmap_endpoint

  /** `not github_url or not career_goal` is false. */
  predicate Required(url: string, goal: string)
  {
    url != "" && goal != ""
  }

  /** The synthetic cache query. */
  function CacheKey(goal: string, stack: string): string
  {
    goal + " | " + stack
  }

  /** When neither goal contains a `|`, the key determines the goal and the stack. */
  lemma {:induction false} CacheKeyInjective(g1: string, s1: string, g2: string, s2: string)
    requires '|' !in g1 && '|' !in g2
    requires CacheKey(g1, s1) == CacheKey(g2, s2)
    ensures g1 == g2 && s1 == s2
  {
    var k := CacheKey(g1, s1);
    assert k[|g1| + 1] == '|' && k[|g2| + 1] == '|';
    assert g1 == k[..|g1|] == g2;
    assert s1 == k[|g1| + 3..] == s2;
  }

  /**
   * The cache test on a probe that did not raise: the nearest stored roadmap when
   * its distance is strictly below the threshold, and nothing otherwise.
   */
  function CacheLookup(docs: seq<Document>, key: string, dist: Distance): (hit: Option<Document>)
    ensures hit.Some? ==>
              && hit.value in docs
              && dist(key, hit.value.text) < Threshold
              && forall d :: d in docs ==> dist(key, hit.value.text) <= dist(key, d.text)
    ensures hit.None? <==> forall d :: d in docs ==> dist(key, d.text) >= Threshold
  {
    match Nearest(docs, key, dist)
    case None => None
    case Some(m) => if m.distance < Threshold then Some(m.doc) else None
  }

  /** A nearest roadmap at distance exactly 0.2 is a miss. */
  lemma {:induction false} ThresholdIsExclusive(docs: seq<Document>, key: string, dist: Distance, d: Document)
    requires d in docs && dist(key, d.text) == Threshold
    requires forall e :: e in docs ==> dist(key, d.text) <= dist(key, e.text)
    ensures CacheLookup(docs, key, dist) == None
  {
  }

  /**
   * Storing a roadmap close to a key makes that key hit, and hit that very roadmap
   * when it is strictly nearer than everything stored before.
   */
  lemma StoredRoadmapHits(docs: seq<Document>, d: Document, key: string, dist: Distance)
    requires dist(key, d.text) < Threshold
    ensures CacheLookup(docs + [d], key, dist).Some?
    ensures (forall e :: e in docs ==> dist(key, d.text) < dist(key, e.text)) ==>
              CacheLookup(docs + [d], key, dist) == Some(d)
  {
  }

  /** The metadata stored with a generated roadmap. */
  function EntryMetadata(goal: string, stack: string, timestamp: string): Metadata
  {
    map["career_goal" := goal, "stack" := stack, "timestamp" := timestamp]
  }

  /** The collaborators of one request, abstracted to their observable outcomes. */
  datatype Collaborators = Collaborators(
    token: string,                                          // GITHUB_TOKEN, "" when unset
    api: Api,                                               // the GitHub REST API
    dist: Distance,                                         // the cache collection's embedding distance
    probeFault: Option<string>,                             // `collection.query` raised
    generate: Pipeline.Prompt -> Result<string, string>,    // Gemini: the text, or `str(e)` of its failure
    addFault: Option<string>,                               // `collection.add` failed in the store
    freshId: string,                                        // `str(uuid.uuid4())`
    timestamp: string)                                      // `str(time.time())`

  /** The probe's verdict; a probe that raised counts as a miss. */
  function Probe(docs: seq<Document>, goal: string, stack: string, env: Collaborators): Option<Document>
  {
    if env.probeFault.Some? then None else CacheLookup(docs, CacheKey(goal, stack), env.dist)
  }

  /** The prompt a miss sends to the model. */
  function MissPrompt(url: string, goal: string, stack: string, env: Collaborators): Pipeline.Prompt
  {
    Pipeline.Prompt(Report(url, env.token, env.api), goal, Pipeline.StackForPrompt(stack), MockMarketContext(goal))
  }

  /** A miss's prompt carries the goal, and the stack or "Not provided." when it is empty. */
  lemma MissPromptStack(url: string, goal: string, stack: string, env: Collaborators)
    ensures MissPrompt(url, goal, stack, env).goal == goal
    ensures stack == "" ==> MissPrompt(url, goal, stack, env).stack == Pipeline.NotProvided
    ensures stack != "" ==> MissPrompt(url, goal, stack, env).stack == stack
  {
  }

  /**
   * `generate_roadmap_endpoint` against the module-level cache collection.
   * The generation and the cache write share one `try`: a failure of either
   * returns "An error occurred: ..." and leaves the cache unchanged.
   */
  method GenerateRoadmap(cache: Collection, url: string, goal: string, stack: string, env: Collaborators)
    returns (result: string, calls: seq<Pipeline.Call>)
    requires cache.Valid()
    modifies cache
    ensures cache.Valid()
    ensures !Required(url, goal) ==> result == MissingFields && calls == [] && cache.docs == old(cache.docs)
    ensures Required(url, goal) ==> |calls| >= 1 && calls[0] == Pipeline.CacheQuery(CacheKey(goal, stack))
    ensures Required(url, goal) && Probe(old(cache.docs), goal, stack, env).Some? ==>
              && result == CachePrefix + Probe(old(cache.docs), goal, stack, env).value.text
              && calls == [Pipeline.CacheQuery(CacheKey(goal, stack))]
              && cache.docs == old(cache.docs)
    ensures Required(url, goal) && Probe(old(cache.docs), goal, stack, env).None? ==>
              var prompt := MissPrompt(url, goal, stack, env);
              var asked := [Pipeline.CacheQuery(CacheKey(goal, stack)), Pipeline.AnalyzeProfile(url),
                            Pipeline.MarketContext(goal), Pipeline.Complete(prompt)];
              match env.generate(prompt)
              case Failure(m) =>
                result == ErrorPrefix + m && calls == asked && cache.docs == old(cache.docs)
              case Success(text) =>
                var entry := Document(env.freshId, text, EntryMetadata(goal, stack, env.timestamp));
                var err := AddError(old(cache.docs), [entry.id], [entry.text], [entry.metadata], env.addFault);
                && calls == asked + [Pipeline.CacheAdd(env.freshId)]
                && (err.None? ==> result == text && cache.docs == old(cache.docs) + [entry])
                && (err.Some? ==> result == ErrorPrefix + ErrorText(err.value) && cache.docs == old(cache.docs))
  {
    if url == "" || goal == "" {
      return MissingFields, [];
    }
    var key := CacheKey(goal, stack);
    calls := [Pipeline.CacheQuery(key)];
    if env.probeFault.None? {
      var top := Nearest(cache.docs, key, env.dist);
      if top.Some? && top.value.distance < Threshold {
        return CachePrefix + top.value.doc.text, calls;
      }
    }

    var githubData := AnalyzeProfile(url, env.token, env.api);
    var marketContext := MockMarketContext(goal);
    var prompt := Pipeline.Prompt(githubData, goal, Pipeline.StackForPrompt(stack), marketContext);
    assert prompt == MissPrompt(url, goal, stack, env);
    calls := [Pipeline.CacheQuery(key), Pipeline.AnalyzeProfile(url), Pipeline.MarketContext(goal), Pipeline.Complete(prompt)];

    match env.generate(prompt) {
      case Failure(m) =>
        result := ErrorPrefix + m;
      case Success(text) =>
        calls := calls + [Pipeline.CacheAdd(env.freshId)];
        var err := cache.Add([env.freshId], [text], [EntryMetadata(goal, stack, env.timestamp)], env.addFault);
        if err.Some? {
          result := ErrorPrefix + ErrorText(err.value);
        } else {
          result := text;
        }
    }
  }
}

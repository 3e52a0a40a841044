/**
 * The Flask `/generate_roadmap` endpoint: check that the two required keys are
 * present, default the stack, then call the analyzer, the knowledge retriever
 * and the completion in that order, mapping any exception to status 500.
 * It has no generation cache.
 */
module App {
  import opened Wrappers
  import opened GitHub
  import opened VectorStore
  import KnowledgeBase
  import GithubAnalyzer
  import Pipeline

  const MissingFields := "Missing required fields: github_url and career_goal"

  /** The JSON object sent back. */
  datatype Body = Roadmap(roadmap: string) | Error(error: string)

  datatype Reply = Reply(status: int, body: Body)

  /** The reply and the collaborator calls made, in order. */
  datatype Outcome = Outcome(reply: Reply, calls: seq<Pipeline.Call>)

  /** `request.get_json()`: `None` when there is no JSON body; string values only. */
  type RequestBody = Option<map<string, string>>

  /** `not data or 'github_url' not in data or 'career_goal' not in data` is false. */
  predicate HasRequired(data: RequestBody)
  {
    data.Some? && "github_url" in data.value && "career_goal" in data.value
  }

  /** `data.get('preferred_stack', '')`. */
  function StackOf(data: map<string, string>): string
  {
    if "preferred_stack" in data then data["preferred_stack"] else ""
  }

  /** The prompt built once the analyzer has returned `profile`. */
  function PromptFor(profile: Text, data: map<string, string>, kb: Collection, dist: Distance): Pipeline.Prompt
    reads kb
    requires "career_goal" in data
  {
    var goal := data["career_goal"];
    Pipeline.Prompt(profile, goal, Pipeline.StackForPrompt(StackOf(data)), KnowledgeBase.MarketContext(kb, goal, dist))
  }

  /**
   * The `try` block, once the analyzer has answered `analysis` for the request `data`:
   * an analyzer exception is a 500 after one call; otherwise the market context and
   * the completion follow, and the completion decides between 200 and 500.
   */
  function TryBlock(data: map<string, string>, analysis: Result<Text, GithubAnalyzer.Raised>, kb: Collection,
                    dist: Distance, complete: Pipeline.Prompt -> Result<string, string>): (o: Outcome)
    reads kb
    requires "github_url" in data && "career_goal" in data
    ensures analysis.Failure? ==>
              o == Outcome(Reply(500, Error(analysis.error.message)), [Pipeline.AnalyzeProfile(data["github_url"])])
    ensures analysis.Success? ==>
              var prompt := PromptFor(analysis.value, data, kb, dist);
              && o.calls == [Pipeline.AnalyzeProfile(data["github_url"]), Pipeline.MarketContext(data["career_goal"]),
                             Pipeline.Complete(prompt)]
              && o.reply == match complete(prompt)
                            case Success(text) => Reply(200, Roadmap(text))
                            case Failure(m) => Reply(500, Error(m))
    ensures o.reply.status == 200 <==> o.reply.body.Roadmap?
    ensures o.reply.status in {200, 500}
    ensures forall i :: 0 <= i < |o.calls| ==> !Pipeline.TouchesCache(o.calls[i])
  {
    var url := data["github_url"];
    match analysis
    case Failure(e) => Outcome(Reply(500, Error(e.message)), [Pipeline.AnalyzeProfile(url)])
    case Success(profile) =>
      var prompt := PromptFor(profile, data, kb, dist);
      var calls := [Pipeline.AnalyzeProfile(url), Pipeline.MarketContext(data["career_goal"]), Pipeline.Complete(prompt)];
      match complete(prompt)
      case Success(text) => Outcome(Reply(200, Roadmap(text)), calls)
      case Failure(m) => Outcome(Reply(500, Error(m)), calls)
  }

  /**
   * `generate_roadmap_endpoint` with the knowledge collection `kb`, its distance
   * `dist`, the GitHub API `api` and the OpenRouter completion `complete`
   * (the text, or `str(e)` of its failure).
   */
  function Endpoint(data: RequestBody, kb: Collection, dist: Distance, api: Api,
                    complete: Pipeline.Prompt -> Result<string, string>): (o: Outcome)
    reads kb
    ensures !HasRequired(data) ==> o == Outcome(Reply(400, Error(MissingFields)), [])
    ensures HasRequired(data) ==>
              o == TryBlock(data.value, GithubAnalyzer.Analyze(data.value["github_url"], api), kb, dist, complete)
    ensures o.reply.status == 400 <==> !HasRequired(data)
    ensures o.reply.status == 200 <==> o.reply.body.Roadmap?
    ensures forall i :: 0 <= i < |o.calls| ==> !Pipeline.TouchesCache(o.calls[i])
  {
    if !HasRequired(data) then Outcome(Reply(400, Error(MissingFields)), [])
    else TryBlock(data.value, GithubAnalyzer.Analyze(data.value["github_url"], api), kb, dist, complete)
  }

  /** Only key presence is checked: empty strings get past validation. */
  lemma EmptyValuesPass(kb: Collection, dist: Distance, api: Api,
                                           complete: Pipeline.Prompt -> Result<string, string>)
    ensures Endpoint(Some(map["github_url" := "", "career_goal" := ""]), kb, dist, api, complete).reply.status != 400
  {
  }

  /**
   * The prompt's stack: "Not provided." when `preferred_stack` is missing or empty,
   * otherwise the given stack unchanged.
   */
  lemma {:induction false} PromptStack(profile: Text, data: map<string, string>, kb: Collection, dist: Distance)
    requires "career_goal" in data
    ensures "preferred_stack" !in data || data["preferred_stack"] == "" ==>
              PromptFor(profile, data, kb, dist).stack == Pipeline.NotProvided
    ensures "preferred_stack" in data && data["preferred_stack"] != "" ==>
              PromptFor(profile, data, kb, dist).stack == data["preferred_stack"]
  {
  }
}

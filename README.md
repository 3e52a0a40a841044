# AI roadmap generator: a verified model of its decision logic

The roadmap generator turns a GitHub profile URL, a career goal and an optional
preferred stack into a project roadmap written by a language model. Around the
model call sit a few precise rules, and this project models them in Dafny:

- **Vector store** (`vector_store.dfy`, module `VectorStore`). A collection is
  an ordered sequence of `(id, text, metadata)` documents. Distance is an
  uninterpreted, non-negative function from a query text to a stored text. A
  top-1 query (`Nearest`) returns a stored document of least distance, or
  nothing when the store is empty. `add` appends a batch of aligned lists.
- **Generation cache and Gradio request flow** (`backup.py`, module `Backup`).
  - Validate the URL and the goal.
  - Probe the cache with `goal + " | " + stack`. A probe that raises counts as a miss.
  - A hit needs a nearest roadmap strictly closer than 0.2. A hit returns that
    roadmap behind the `**[Loaded from Database Cache]**` banner.
  - On a miss, analyze the profile, build the prompt and call the generator.
    On success, append exactly one roadmap to the cache.
  - Generation and the cache write share one error handler.
  - The profile analyzer returns messages instead of raising.
- **Knowledge retriever** (`backend/modules/knowledge_base.py`, module `KnowledgeBase`).
  The six-entry job-role corpus is loaded in one batch (id = role key,
  text = description). The retriever answers top-1 queries and falls back to a
  fixed sentence when there is no result.
- **Back-end profile analyzer** (`backend/modules/github_analyzer.py`, module `GithubAnalyzer`).
  It extracts the username and maps an HTTP failure to the exception that
  escapes. It formats the language set and one `- Project:` entry per
  repository.
- **Flask endpoint** (`backend/app.py`, module `App`).
  - A missing body or key returns 400.
  - The stack defaults to `''`, and an empty stack becomes `"Not provided."`.
  - Calls are made in order: analyzer, market context, completion.
  - Success returns `{'roadmap': ...}`. Any exception returns 500. No cache is involved.

Shared pieces:

- `strings.dfy`: Python's `strip`, `rstrip`, `split(...)[-1]`, `in`, `join` and `str(int)`.
- `github.dfy`: decoded repository records with `.get` defaults and Python
  truthiness, and the HTTP outcome. It also has `Text`, a summary whose language
  list is an unordered set.
- `pipeline.dfy`: the prompt's variable parts and the trace of collaborator calls.
- `comparison.dfy`: lemmas contrasting the two implementations.

Collaborators come in as parameters:

- the GitHub API and the language models;
- the embedding distance;
- faults of the cache store;
- the token, `uuid4()` and `time.time()`.

## Model

| member | source | states |
|---|---|---|
| `VectorStore.Nearest` | backup.py:97-99 | the top-1 result is empty exactly when the store is empty; otherwise it is a stored document whose distance is no greater than that of any stored document |
| `VectorStore.AddError` | backup.py:183-191 | an `add` is accepted exactly when the store does not fail, the three lists have equal length, and the ids are distinct and not yet stored |
| `VectorStore.AddKeepsIdsUnique` | backend/modules/knowledge_base.py:25-27 | an accepted batch keeps every id in the collection unique |
| `VectorStore.Collection.constructor` | backend/modules/knowledge_base.py:17-20 | a new collection is empty |
| `VectorStore.Collection.Add` | backup.py:183-191 | an accepted batch is appended in order as index-aligned `(id, text, metadata)` documents; a refused batch leaves the collection unchanged |
| `GitHub.RenderListsEveryItem` | backend/modules/github_analyzer.py:39 | whatever order Python iterates the language set in, the printed summary starts with the text before the set, ends with the text after it, and shows every language of the set |
| `KnowledgeBase.RoleIdsAreKeys` | backend/modules/knowledge_base.py:5-25 | the id list has six distinct entries, exactly the keys of `JOB_ROLES_KNOWLEDGE` |
| `KnowledgeBase.CorpusIsDictionary` | backend/modules/knowledge_base.py:5-27 | the batch holds 6 documents with unique ids; each has id = a key and text = that key's value, and every key has a document |
| `KnowledgeBase.Setup` | backend/modules/knowledge_base.py:22-28 | the error is the `add` outcome for the corpus batch: a store or embedding fault, or a role id already stored; setup without a fault on an empty collection leaves exactly the corpus; on success the corpus is appended, and on failure nothing changes |
| `KnowledgeBase.SecondSetupRefused` | backend/modules/knowledge_base.py:22-27 | once the corpus is stored, adding it again is refused as a duplicate-id batch |
| `KnowledgeBase.SetupTwice` | backend/modules/knowledge_base.py:22-27 | on a new collection the first setup succeeds and the second is refused with a duplicate id, leaving exactly one document per role key |
| `KnowledgeBase.MarketContext` | backend/modules/knowledge_base.py:30-36 | an empty collection gives the fallback sentence; otherwise the result is the text of a stored document nearest to the goal; reads the collection only |
| `KnowledgeBase.MarketContextFromCorpus` | backend/modules/knowledge_base.py:30-36 | over the loaded corpus the answer is always one of the six descriptions, the one nearest to the goal |
| `GithubAnalyzer.EntryShape` | backend/modules/github_analyzer.py:43-45 | every entry starts with `- Project: ` and ends with a newline |
| `GithubAnalyzer.EntryShowsLanguage` | backend/modules/github_analyzer.py:44 | an entry shows `(Language: N/A)` for a repository without the `language` key (the `.get` default), `(Language: None)` for a JSON `null`, and the language string otherwise |
| `GithubAnalyzer.ProjectsSection` | backend/modules/github_analyzer.py:41-45 | the `summary +=` loop yields the projects header followed by the entries concatenated in list order |
| `GithubAnalyzer.Analyze` | backend/modules/github_analyzer.py:13-55 | an empty username is re-raised as `RuntimeError("An unexpected error occurred: ...")`; a `ValueError` ("not found") escapes exactly on 404; a `ConnectionError` escapes exactly on any other 4xx/5xx; a request that raised or a body that did not decode gives `RuntimeError` with the generic prefix followed by the cause's message; the call succeeds exactly when the username is non-empty, the request is answered without an HTTP error and the body decodes to a list, and then gives the no-repositories message for `[]` and the summary otherwise |
| `GithubAnalyzer.UsernameOfProfileUrl` | backend/modules/github_analyzer.py:14 | surrounding whitespace and trailing slashes are stripped and the username is the last `/` segment |
| `Backup.AcceptedUrlHasUsername` | backup.py:47-54 | a URL that passes the `github.com` check always yields a non-empty username |
| `Backup.UsernameOfProfileUrl` | backup.py:54 | for `prefix/name` followed by any number of `/`s, the username is `name` |
| `Backup.SummarizeRepos` | backup.py:68-71 | the loop reports a missing `name` key exactly when some repository lacks it; otherwise it collects every truthy language (with the `'Unknown'` default) and one line per repository in order |
| `Backup.AnalyzeProfile` | backup.py:42-78 | returns the invalid-URL or missing-token message before any request; otherwise returns the fetch-failure, status, decode or `'name'` error message, or the user/languages/repositories summary; only a summary fetched from the API has a non-empty language set |
| `Backup.CacheKeyInjective` | backup.py:95 | when neither goal contains `\|`, the key `goal + " \| " + stack` determines both goal and stack |
| `Backup.CacheLookup` | backup.py:97-102 | a hit is a stored roadmap strictly below 0.2 and nearest to the key; there is no hit exactly when every stored roadmap is at distance 0.2 or more |
| `Backup.ThresholdIsExclusive` | backup.py:100 | a nearest roadmap at distance exactly 0.2 is a miss |
| `Backup.StoredRoadmapHits` | backup.py:97-102 | after a roadmap is appended, a key closer than 0.2 to it hits; when that roadmap is strictly nearest, the hit returns it |
| `Backup.GenerateRoadmap` | backup.py:88-198 | missing URL or goal gives the missing-fields message with no calls and the cache unchanged; otherwise the first call is the cache query with the synthetic key; a hit returns banner + roadmap after that one call with the cache unchanged; a miss (including a probe that raised) then analyzes, takes the market context and asks the model; a generation failure returns `"An error occurred: ..."` with the cache unchanged; otherwise exactly one entry under the fresh id with `{career_goal, stack, timestamp}` is appended and the text returned, or, if that write fails, the error message is returned and the generated text is not |
| `App.TryBlock` | backend/app.py:57-133 | an analyzer exception gives 500 with its message after one call; otherwise analyzer, market context and completion are called in that order; the completion's result gives 200 with `roadmap` or 500 with its message; no cache call |
| `App.Endpoint` | backend/app.py:47-133 | no body or a missing `github_url`/`career_goal` key gives 400 with no calls, and status 400 happens only then; otherwise the reply and calls are those of the try block; 200 exactly when a roadmap is returned; no call touches a cache |
| `App.EmptyValuesPass` | backend/app.py:50-51 | empty-string values pass validation, since only key presence is checked |
| `App.PromptStack` | backend/app.py:55-87 | a missing or empty `preferred_stack` puts `"Not provided."` in the prompt; a non-empty one reaches the prompt unchanged |
| `Backup.MissPromptStack` | backup.py:130-135 | a miss's prompt carries the goal, `"Not provided."` for an empty stack, and any non-empty stack unchanged |
| `Comparison.LanguagesCompared` | backend/modules/github_analyzer.py:37 | the Gradio analyzer's language set is the back end's plus `"Unknown"` exactly when some repository lacks the `language` key |
| `Comparison.ValidationDiffers` | backend/app.py:50 | any request whose `github_url` or `career_goal` is the empty string passes the back end's key-presence check but fails the Gradio application's check |
| `Comparison.UsernamesAgree` | backend/modules/github_analyzer.py:14 | for a URL without surrounding whitespace, both analyzers extract the same username |

## Left out

- Embeddings and Chroma's metric: distance is an uninterpreted non-negative real function. The 0.2 threshold is compared as an exact real.
- VectorStore.Nearest: Chroma's approximate (HNSW) search is modelled as an exact nearest-neighbour search. On a tie the earliest document is chosen, but no contract promises which one.
- The cached roadmap's distance is from the synthetic key to the stored roadmap text. `collection.add` embeds the generated text, not the key.
- VectorStore.AddError: the model picks a policy for an `add` whose ids repeat or are already stored: refuse the whole batch. The wording of the store's error messages (`ErrorText`) is not Chroma's.
- Language-model calls (Gemini, OpenRouter) are functions from the prompt to a text or an error message. Model selection and retries are out of scope.
- HTTP requests and JSON decoding: the API is a function from the username to a response or a raised message.
  - A decoded body that is not a list of repository objects is a decoding error with its message.
  - Repository field values other than strings and `null` are not modelled.
- Backup.Report and GithubAnalyzer.Analyze: the summary's language list is a set, and its print order depends on Python's set iteration order, so it is not pinned. `GitHub.Render` takes that order as a parameter.
- `uuid4()` and `time.time()` are parameters: the fresh id and the timestamp string. Freshness is not assumed. A colliding id takes the refused-`add` path.
- The literal prompt template is not modelled, except for the stack substitution. A prompt is the tuple of its variable parts.
- The mock `get_market_context` in `backup.py` is modelled only as its formatting string.
- App.Endpoint: request values are strings, and the decoded body is an object or absent. A non-string JSON value (say, `null` for `github_url`) is not modelled. Neither is a JSON body that is not an object: a list such as `["github_url", "career_goal"]` passes the `in` checks of backend/app.py:50, and indexing it at backend/app.py:53 raises outside the `try`, giving Flask's own 500. Flask's rejection of a non-JSON body is not modelled either.
- KnowledgeBase.MarketContext: the knowledge query cannot fail in the model. An embedding error there, which the back end would turn into a 500, is not modelled.
- KnowledgeBase.Setup: a store or embedding failure at start-up is the `fault` parameter and comes back as the error. The exception that then ends the process is not modelled.
- Gradio UI, Flask routing, CORS, Prometheus metrics, `/health`, environment loading, model listing and debug prints are not modelled.
- There is no concurrency in the code, and none is modelled.
- The call trace returned by `Backup.GenerateRoadmap` and `App.Endpoint` is an observation added by the model. The source returns only the text or the reply.
- In three places the model follows the code:
  - A failing cache write in `backup.py` is not swallowed. It shares the generation's `try`, so the user gets the error message instead of the roadmap.
  - Validation in `backup.py` returns a message string, not a typed error.
  - A second knowledge-base setup is refused by the model's `add` policy, not skipped.

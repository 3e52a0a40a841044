/**
 * How the two implementations of the same steps differ: the Gradio
 * application (`Backup`) and the Flask back end (`App`, `GithubAnalyzer`).
 */
module Comparison {
  import opened Wrappers
  import opened Strings
  import opened GitHub
  import Backup
  import GithubAnalyzer
  import App

  /** Some repository has no `language` key at all. */
  predicate SomeLacksLanguage(repos: seq<Repo>)
  {
    exists i :: 0 <= i < |repos| && "language" !in repos[i]
  }

  lemma BackendLanguagesStep(repos: seq<Repo>)
    requires repos != []
    ensures var n := |repos| - 1;
            var lang := Get(repos[n], "language", Null);
            GithubAnalyzer.Languages(repos) ==
              GithubAnalyzer.Languages(repos[..n]) + (if Truthy(lang) then {lang.s} else {})
  {
  }

  /**
   * The Gradio analyzer's language set is the back end's plus "Unknown" exactly when
   * some repository lacks the `language` key: its `.get` default is truthy, the
   * back end's comprehension skips such repositories.
   */
  lemma {:induction false} LanguagesCompared(repos: seq<Repo>)
    ensures Backup.Languages(repos) ==
              GithubAnalyzer.Languages(repos) + (if SomeLacksLanguage(repos) then {"Unknown"} else {})
    decreases |repos|
  {
    if repos != [] {
      var n := |repos| - 1;
      var init := repos[..n];
      LanguagesCompared(init);
      BackendLanguagesStep(repos);
      assert SomeLacksLanguage(repos) <==> SomeLacksLanguage(init) || "language" !in repos[n] by {
        if SomeLacksLanguage(repos) {
          var i :| 0 <= i < |repos| && "language" !in repos[i];
          if i < n {
            assert init[i] == repos[i];
          }
        }
        if SomeLacksLanguage(init) {
          var i :| 0 <= i < |init| && "language" !in init[i];
          assert repos[i] == init[i];
        }
      }
    } else {
      assert !SomeLacksLanguage(repos);
    }
  }

  /**
   * A request whose URL or goal is the empty string passes the back end's
   * key-presence check but fails the Gradio application's truthiness check.
   */
  lemma ValidationDiffers(m: map<string, string>)
    requires "github_url" in m && "career_goal" in m
    requires m["github_url"] == "" || m["career_goal"] == ""
    ensures App.HasRequired(Some(m))
    ensures !Backup.Required(m["github_url"], m["career_goal"])
  {
  }

  /** Without surrounding whitespace, both analyzers extract the same username. */
  lemma UsernamesAgree(url: string)
    requires url == [] || (!IsSpace(url[0]) && !IsSpace(url[|url| - 1]))
    ensures GithubAnalyzer.Username(url) == Backup.Username(url)
  {
  }
}

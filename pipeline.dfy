/** What both roadmap endpoints hand to the language model, and the calls they make. */
module Pipeline {
  import GitHub

  /**
   * The variable parts of the mentor prompt; the fixed template text around them
   * is not modelled. `stack` is the stack as substituted into the template.
   */
  datatype Prompt = Prompt(profile: GitHub.Text, goal: string, stack: string, market: string)

  /** A call an endpoint makes to a collaborator, in the order it makes it. */
  datatype Call =
    | CacheQuery(query: string)
    | AnalyzeProfile(url: string)
    | MarketContext(goal: string)
    | Complete(prompt: Prompt)
    | CacheAdd(id: string)

  const NotProvided := "Not provided."

  /** `preferred_stack if preferred_stack else "Not provided."`. */
  function StackForPrompt(stack: string): string
  {
    if stack == "" then NotProvided else stack
  }

  predicate TouchesCache(c: Call)
  {
    c.CacheQuery? || c.CacheAdd?
  }
}

/**
 * Decoded GitHub REST data as both analyzers see it, the outcome of the
 * API request, and profile summaries whose language list is an unordered set.
 */
module GitHub {
  import opened Wrappers
  import opened Strings

  /** A JSON field value of a repository record: `null` or a string. */
  datatype Value = Null | Str(s: string)

  /** One decoded repository object; an absent key is a key outside the map. */
  type Repo = map<string, Value>

  /** `repo.get(key, default)`: the default applies only when the key is absent. */
  function Get(repo: Repo, key: string, default: Value): Value
  {
    if key in repo then repo[key] else default
  }

  /** Python truthiness: `None` and `""` are false. */
  predicate Truthy(v: Value)
  {
    v.Str? && v.s != ""
  }

  /** How an f-string prints the value. */
  function Show(v: Value): string
  {
    match v
    case Null => "None"
    case Str(s) => s
  }

  /** The HTTP response to `GET /users/{username}/repos`; `body` is the decoded JSON list or the decoding error. */
  datatype Response = Response(status: int, reason: string, url: string, body: Result<seq<Repo>, string>)

  /** What `requests.get` did: raised (no response) with a message, or answered. */
  datatype Fetch = Raised(message: string) | Answered(response: Response)

  /** The GitHub API, as a function of the username in the request path. */
  type Api = string -> Fetch

  /**
   * A text with one unordered slot: `head`, then the items of `slot` joined by ", "
   * in the order Python iterates the set (or `emptySlot` when it is empty), then `tail`.
   */
  datatype Text = Text(head: string, slot: set<string>, emptySlot: string, tail: string)

  /** A text without an unordered part. */
  function Plain(s: string): Text
  {
    Text(s, {}, "", "")
  }

  /** `order` lists every element of `items` exactly once. */
  predicate Enumerates(order: seq<string>, items: set<string>)
  {
    && (forall i, j :: 0 <= i < j < |order| ==> order[i] != order[j])
    && (forall i :: 0 <= i < |order| ==> order[i] in items)
    && (forall x :: x in items ==> x in order)
  }

  /** The string Python builds, given the iteration order of the set. */
  function Render(t: Text, order: seq<string>): (s: string)
    requires Enumerates(order, t.slot)
    ensures t.slot == {} ==> s == t.head + t.emptySlot + t.tail
  {
    t.head + (if t.slot == {} then t.emptySlot else Join(order, ", ")) + t.tail
  }

  /**
   * Whatever the iteration order, the rendered text starts with `head`, ends with
   * `tail`, and every item of the slot occurs in it.
   */
  lemma RenderListsEveryItem(t: Text, order: seq<string>)
    requires Enumerates(order, t.slot)
    ensures t.head <= Render(t, order)
    ensures |t.tail| <= |Render(t, order)| && Render(t, order)[|Render(t, order)| - |t.tail|..] == t.tail
    ensures forall x :: x in t.slot ==> Contains(Render(t, order), x)
  {
    var mid := if t.slot == {} then t.emptySlot else Join(order, ", ");
    assert Render(t, order) == t.head + mid + t.tail;
    forall x | x in t.slot
      ensures Contains(Render(t, order), x)
    {
      var k :| 0 <= k < |order| && order[k] == x;
      JoinContains(order, ", ", k);
      ContainsAfter(t.head, mid, x);
      ContainsBefore(t.head + mid, t.tail, x);
    }
  }
}

/**
 * What both revisions of the search page share: the request they build, the
 * response they receive, and the content area they render.
 */
module Search {
  import opened Common

  type Param = (string, string)

  /** The JSON body of a reply: unparsable, or an object with optional `results` and `message`. */
  datatype Body =
    | Unparsable(reason: string)
    | Parsed(results: Option<seq<Recipe>>, message: Option<string>)

  /** What `fetch` yields: a rejected promise (with the error's message) or a reply. */
  datatype Response =
    | Rejected(reason: string)
    | Reply(ok: bool, body: Body)

  /** What a completed request does to the page: install a result list, or raise an error toast. */
  datatype Outcome =
    | Replace(results: Option<seq<Recipe>>)
    | Fail(description: string)

  /**
   * The content area below the search form. `RenderError` is the render
   * throwing because `recipes` is `undefined`.
   */
  datatype View =
    | KeyEntry
    | Placeholders(count: nat)
    | Cards(recipes: seq<Recipe>)
    | NoRecipesMessage
    | RenderError

  /** The destructive toast both revisions raise when a search fails. */
  function ErrorToast(description: string): Toast {
    Toast("Error", description, true)
  }

  const PlaceholderCount: nat := 6
  const ResultCount: string := "12"

  /** The value of the first parameter named `key`. */
  function Lookup(params: seq<Param>, key: string): Option<string> {
    if params == [] then None
    else if params[0].0 == key then Some(params[0].1)
    else Lookup(params[1..], key)
  }

  function Names(params: seq<Param>): (names: seq<string>)
    ensures |names| == |params|
    ensures forall i :: 0 <= i < |params| ==> names[i] == params[i].0
  {
    if params == [] then [] else [params[0].0] + Names(params[1..])
  }

  /**
   * The query string of a search: exactly these five names in this order.
   * `diet || ""` is the diet itself for any string, so the diet parameter is
   * always present, empty when no diet is chosen.
   */
  function SearchParams(apiKey: string, query: string, diet: string): (params: seq<Param>)
    ensures Names(params) == ["apiKey", "query", "diet", "number", "addRecipeInformation"]
    ensures Lookup(params, "apiKey") == Some(apiKey)
    ensures Lookup(params, "query") == Some(query)
    ensures Lookup(params, "diet") == Some(diet)
    ensures Lookup(params, "number") == Some(ResultCount)
    ensures Lookup(params, "addRecipeInformation") == Some("true")
  {
    var params := [("apiKey", apiKey), ("query", query), ("diet", diet),
                   ("number", ResultCount), ("addRecipeInformation", "true")];
    var p2, p3, p4 := params[2..], params[3..], params[4..];
    assert params[1..][1..] == p2 && p2[1..] == p3 && p3[1..] == p4;
    assert Lookup(params, "diet") == Lookup(p2, "diet");
    assert Lookup(params, "number") == Lookup(p2, "number") == Lookup(p3, "number");
    assert Lookup(params, "addRecipeInformation") == Lookup(p2, "addRecipeInformation")
      == Lookup(p3, "addRecipeInformation") == Lookup(p4, "addRecipeInformation");
    params
  }
}

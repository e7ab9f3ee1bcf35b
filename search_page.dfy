/**
 * The current home page (src/pages/Index.tsx). A missing key raises a toast,
 * a failed request or an empty result list raises an error toast carrying
 * the reply's `message` when it has one, and an empty list renders a
 * "no recipes found" message.
 */
module SearchPage {
  import opened Common
  import opened Search

  const MissingKeyToast: Toast :=
    Toast("API Key Missing", "Please enter an API key to search recipes.", true)
  const NoRecipesText: string := "No recipes found."

  /** `message || fallback`: a missing or empty message gives the fallback. */
  function MessageOr(message: Option<string>, fallback: string): string {
    if message.Some? && message.value != "" then message.value else fallback
  }

  /**
   * What a completed request does. The body is read before the status, so
   * an unparsable body fails with the parser's message whatever the status.
   * A parsed body succeeds iff the status is ok and `results` is not an
   * empty list; a missing `results` passes the check and is installed as
   * `undefined`.
   */
  function SearchOutcome(response: Response): (o: Outcome)
    ensures o.Replace? <==>
      response.Reply? && response.ok && response.body.Parsed? && response.body.results != Some([])
    ensures o.Replace? ==> o.results == response.body.results
    ensures response.Rejected? ==> o == Fail(response.reason)
    ensures response.Reply? && response.body.Unparsable? ==> o == Fail(response.body.reason)
    ensures response.Reply? && response.body.Parsed? && o.Fail? ==>
      o.description == MessageOr(response.body.message, NoRecipesText)
  {
    match response
    case Rejected(reason) => Fail(reason)
    case Reply(ok, Unparsable(reason)) => Fail(reason)
    case Reply(ok, Parsed(results, message)) =>
      if !ok || (results.Some? && |results.value| == 0) then Fail(MessageOr(message, NoRecipesText))
      else Replace(results)
  }

  /**
   * The content area: the key form alone without a key, six placeholders while
   * loading, one card per recipe in order for a non-empty list, otherwise the
   * "no recipes found" message.
   */
  function Render(apiKey: string, isLoading: bool, recipes: Option<seq<Recipe>>): (v: View)
    ensures v == KeyEntry <==> apiKey == ""
    ensures v.Placeholders? <==> apiKey != "" && isLoading
    ensures v.Placeholders? ==> v.count == 6
    ensures v.Cards? <==> apiKey != "" && !isLoading && recipes.Some? && recipes.value != []
    ensures v.Cards? ==> v.recipes == recipes.value
    ensures v == NoRecipesMessage <==> apiKey != "" && !isLoading && recipes == Some([])
    ensures v == RenderError <==> apiKey != "" && !isLoading && recipes.None?
  {
    if apiKey == "" then KeyEntry
    else if isLoading then Placeholders(PlaceholderCount)
    else if recipes.None? then RenderError
    else if |recipes.value| > 0 then Cards(recipes.value)
    else NoRecipesMessage
  }

  /** A search that succeeds always has cards to show: an empty list is never installed. */
  lemma SuccessShowsCards(apiKey: string, response: Response)
    requires apiKey != ""
    requires SearchOutcome(response).Replace? && SearchOutcome(response).results.Some?
    ensures var results := SearchOutcome(response).results.value;
      results != [] && Render(apiKey, false, Some(results)) == Cards(results)
  {
  }

  class Index {
    var apiKey: string
    /** `None` stands for `undefined`. */
    var recipes: Option<seq<Recipe>>
    var isLoading: bool
    var toasts: seq<Toast>

    constructor ()
      ensures apiKey == "" && recipes == Some([]) && !isLoading && toasts == []
    {
      apiKey := "";
      recipes := Some([]);
      isLoading := false;
      toasts := [];
    }

    /** `setApiKey`, the callback the key form calls. */
    method SetApiKey(key: string)
      modifies this
      ensures apiKey == key
      ensures recipes == old(recipes) && isLoading == old(isLoading) && toasts == old(toasts)
    {
      apiKey := key;
    }

    /**
     * The synchronous part of `searchRecipes`, up to the `fetch`. Without a key
     * it raises one "API Key Missing" toast and changes nothing else; with one
     * it sets the loading flag and returns the request's parameters.
     */
    method BeginSearch(query: string, diet: string) returns (request: Option<seq<Param>>)
      requires !isLoading
      modifies this
      ensures apiKey == old(apiKey) && recipes == old(recipes)
      ensures if apiKey == "" then
          request.None? && !isLoading && toasts == old(toasts) + [MissingKeyToast]
        else
          request == Some(SearchParams(apiKey, query, diet)) && isLoading && toasts == old(toasts)
    {
      if apiKey == "" {
        toasts := toasts + [MissingKeyToast];
        request := None;
        return;
      }
      isLoading := true;
      request := Some(SearchParams(apiKey, query, diet));
    }

    /**
     * The rest of `searchRecipes`, once the response is in: on success the list
     * is replaced verbatim; on failure it is kept and exactly one error toast
     * is raised. Either way loading ends.
     */
    method CompleteSearch(response: Response)
      requires isLoading
      modifies this
      ensures apiKey == old(apiKey) && !isLoading
      ensures match SearchOutcome(response)
        case Replace(results) => recipes == results && toasts == old(toasts)
        case Fail(description) => recipes == old(recipes) && toasts == old(toasts) + [ErrorToast(description)]
    {
      var outcome := SearchOutcome(response);
      match outcome {
        case Replace(results) =>
          recipes := results;
        case Fail(description) =>
          toasts := toasts + [ErrorToast(description)];
      }
      isLoading := false;
    }
  }
}

/**
 * The earlier home page (src/components/Index.tsx). A missing key makes a
 * search silently do nothing, every failure raises the same fixed toast, an
 * ok reply is installed even when its list is empty, and an empty list
 * renders no message at all.
 */
module LegacySearchPage {
  import opened Common
  import opened Search
  import SearchPage

  const FailureText: string := "Failed to fetch recipes. Please try again."

  /**
   * What a completed request does. The status is checked before the body is
   * read; an ok reply with a parsed body succeeds, with whatever `results`
   * holds, and anything else fails with the fixed text.
   */
  function SearchOutcome(response: Response): (o: Outcome)
    ensures o.Replace? <==> response.Reply? && response.ok && response.body.Parsed?
    ensures o.Replace? ==> o.results == response.body.results
    ensures o.Fail? ==> o.description == FailureText
  {
    match response
    case Rejected(_) => Fail(FailureText)
    case Reply(ok, body) =>
      if !ok then Fail(FailureText)
      else if body.Unparsable? then Fail(FailureText)
      else Replace(body.results)
  }

  /**
   * The content area: the key form alone without a key, six placeholders while
   * loading, otherwise one card per recipe in order, possibly none, and never
   * an empty-state message.
   */
  function Render(apiKey: string, isLoading: bool, recipes: Option<seq<Recipe>>): (v: View)
    ensures v == KeyEntry <==> apiKey == ""
    ensures v.Placeholders? <==> apiKey != "" && isLoading
    ensures v.Placeholders? ==> v.count == 6
    ensures v.Cards? <==> apiKey != "" && !isLoading && recipes.Some?
    ensures v.Cards? ==> v.recipes == recipes.value
    ensures v != NoRecipesMessage
  {
    if apiKey == "" then KeyEntry
    else if isLoading then Placeholders(PlaceholderCount)
    else if recipes.None? then RenderError
    else Cards(recipes.value)
  }

  /**
   * The revisions part ways on an ok reply with an empty list: the earlier one
   * installs it and renders an empty grid, the current one raises an error
   * toast, keeps the old list, and would show a message for an empty list.
   */
  lemma EmptyResultsDiffer(apiKey: string, message: Option<string>)
    requires apiKey != ""
    ensures var response := Reply(true, Parsed(Some([]), message));
      SearchOutcome(response) == Replace(Some([])) &&
      Render(apiKey, false, Some([])) == Cards([]) &&
      SearchPage.SearchOutcome(response) == Fail(SearchPage.MessageOr(message, SearchPage.NoRecipesText)) &&
      SearchPage.Render(apiKey, false, Some([])) == NoRecipesMessage
  {
  }

  /** On an ok reply with a non-empty list both revisions install that list and show one card per recipe. */
  lemma NonEmptyResultsAgree(apiKey: string, results: seq<Recipe>, message: Option<string>)
    requires apiKey != "" && results != []
    ensures var response := Reply(true, Parsed(Some(results), message));
      SearchOutcome(response) == SearchPage.SearchOutcome(response) == Replace(Some(results)) &&
      Render(apiKey, false, Some(results)) == SearchPage.Render(apiKey, false, Some(results)) == Cards(results)
  {
  }

  /**
   * An ok reply without a `results` field gets past both revisions' checks,
   * sets the list to `undefined`, and the next render throws.
   */
  lemma MissingResultsBreakRender(apiKey: string, message: Option<string>)
    requires apiKey != ""
    ensures var response := Reply(true, Parsed(None, message));
      SearchOutcome(response) == SearchPage.SearchOutcome(response) == Replace(None) &&
      Render(apiKey, false, None) == SearchPage.Render(apiKey, false, None) == RenderError
  {
  }

  class Index {
    var apiKey: string
    /** `None` stands for `undefined`. */
    var recipes: Option<seq<Recipe>>
    var isLoading: bool
    var toasts: seq<Toast>

    constructor ()
      ensures apiKey == "" && recipes == Some([]) && !isLoading && toasts == []
    {
      apiKey := "";
      recipes := Some([]);
      isLoading := false;
      toasts := [];
    }

    /** `setApiKey`, the callback the key form calls. */
    method SetApiKey(key: string)
      modifies this
      ensures apiKey == key
      ensures recipes == old(recipes) && isLoading == old(isLoading) && toasts == old(toasts)
    {
      apiKey := key;
    }

    /**
     * The synchronous part of `searchRecipes`. Without a key it returns at once
     * with no change and no toast; with one it sets the loading flag and
     * returns the request's parameters.
     */
    method BeginSearch(query: string, diet: string) returns (request: Option<seq<Param>>)
      requires !isLoading
      modifies this
      ensures apiKey == old(apiKey) && recipes == old(recipes) && toasts == old(toasts)
      ensures if apiKey == "" then request.None? && !isLoading
        else request == Some(SearchParams(apiKey, query, diet)) && isLoading
    {
      if apiKey == "" {
        request := None;
        return;
      }
      isLoading := true;
      request := Some(SearchParams(apiKey, query, diet));
    }

    /**
     * The rest of `searchRecipes`: on success the list is replaced verbatim,
     * empty or not; on failure it is kept and exactly one toast with the fixed
     * text is raised. Either way loading ends.
     */
    method CompleteSearch(response: Response)
      requires isLoading
      modifies this
      ensures apiKey == old(apiKey) && !isLoading
      ensures match SearchOutcome(response)
        case Replace(results) => recipes == results && toasts == old(toasts)
        case Fail(_) => recipes == old(recipes) && toasts == old(toasts) + [ErrorToast(FailureText)]
    {
      var outcome := SearchOutcome(response);
      match outcome {
        case Replace(results) =>
          recipes := results;
        case Fail(_) =>
          toasts := toasts + [ErrorToast(FailureText)];
      }
      isLoading := false;
    }
  }
}

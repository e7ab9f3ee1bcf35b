# Recipe search app: a Dafny model of its state machines

The app lets a user enter a Spoonacular API key, search recipes by text and
diet, favourite recipes with a heart button, create their own recipes, and
browse favourites and created recipes on a collection page. There is no
server. All persistent state lives in the browser's local storage, under the
keys `spoonacular_api_key`, `favorites` and `custom_recipes`.

The model treats each component as a small sequential state machine over one
shared store:

- `Storage.Store` is local storage. It maps string keys to typed values; JSON
  encoding is taken to round-trip exactly. A missing list key reads as `[]`.
  `Store.Valid()` says each known key holds the kind of value the app writes.
- `RecipeCard.Card` is a card's `isFavorite` flag and its heart toggle. The
  flag is read from the store on mount. A toggle filters the recipe out or
  appends it, choosing by the flag rather than by the store. `Card.InSync()`
  makes the flag/store agreement explicit, and the toggle lemmas assume it.
- `ApiKeyInput.KeyForm` is the key form: adopt the stored key on mount;
  trim, store and report the key on submit.
- `SearchPage.Index` (`src/pages/Index.tsx`) and `LegacySearchPage.Index`
  (`src/components/Index.tsx`) are the two revisions of the home page.
  `searchRecipes` is split at its `await`. `BeginSearch` does the key check,
  sets the loading flag and returns the request parameters. `CompleteSearch`
  takes the HTTP outcome as a `Search.Response` value. Each revision has a
  pure `SearchOutcome` and a pure `Render` returning a `Search.View`.
- `NewRecipe.Form` is the creation form. Its submit builds a record (id from
  a timestamp parameter, numeric fields through `parseInt`) and appends it
  to `custom_recipes`.
- `Favorites.Page` loads both lists on mount. `Favorites.TabView` picks each
  tab's content.
- `Strings` models JavaScript's `trim` and a decimal `parseInt`.

Toasts, `onKeySet` calls and navigation are recorded as event sequences on
the component that raises them.

Two behaviours of the code worth stating:

- A failed search keeps the previous result list in both revisions; it does
  not clear it.
- Whether an empty result list is an error depends on the revision. The
  current page treats it as a failure; the earlier one installs it. Lemma
  `LegacySearchPage.EmptyResultsDiffer` states the difference.

In both revisions an ok reply whose body has no `results` field gets past the
checks. It sets the list to `undefined`, which the model writes as `None`.
The next render then throws (`View.RenderError`). Lemma
`LegacySearchPage.MissingResultsBreakRender` states this.

## Model

| member | source | states |
|---|---|---|
| Storage.Store.RecipesAt | src/pages/Favorites.tsx:21-22 | a missing list key reads as the empty list; a present one reads as its stored list |
| Storage.Store.TextAt | src/components/ApiKeyInput.tsx:19 | reading the key entry gives `null` (None) exactly when the key is absent, else the stored text |
| Strings.Trim | src/components/ApiKeyInput.tsx:31-32 | the result is `s` minus leading and trailing JS whitespace only; it has no whitespace at either end; it is empty iff `s` is all whitespace |
| Strings.TrimIdempotent | src/components/ApiKeyInput.tsx:32 | trimming a trimmed string changes nothing |
| Strings.ParseIntDecimal | src/pages/NewRecipe.tsx:49-51 | `parseInt` reads back the decimal spelling of every natural number, whatever non-digit text follows |
| Strings.ParseIntExamples | src/pages/NewRecipe.tsx:49-51 | "30" parses to 30 and "4" parses to 4 |
| RecipeCard.Without | src/components/RecipeCard.tsx:40 | the filtered list holds exactly the old entries whose id differs; its length drops by the number of entries with that id |
| RecipeCard.WithoutAppend | src/components/RecipeCard.tsx:40 | filtering distributes over concatenation, so kept entries keep their relative order |
| RecipeCard.WithoutAbsent | src/components/RecipeCard.tsx:40 | filtering out an id the list lacks returns the list unchanged |
| RecipeCard.ToggleEffect | src/components/RecipeCard.tsx:39-42 | with the flag set, the new list has no entry with the id and keeps every other entry; with it clear, the new list is the old list followed by the recipe |
| RecipeCard.ToggleKeepsSync | src/components/RecipeCard.tsx:29-47 | if the flag agrees with the store before a toggle, it agrees after, and the id is stored at most once |
| RecipeCard.AddThenRemoveRestores | src/components/RecipeCard.tsx:40-42 | an add followed by a remove gives back the original favourites list exactly |
| RecipeCard.TogglesFromMount | src/components/RecipeCard.tsx:28-47 | after n toggles from mount, the flag still agrees with the store; the id is present iff present at mount xor n is odd; for n > 0 it is stored at most once |
| RecipeCard.TogglesFromAbsent | src/components/RecipeCard.tsx:34-47 | for a recipe absent at mount, n toggles leave the original list if n is even, else the original followed by the recipe |
| RecipeCard.Card.constructor | src/components/RecipeCard.tsx:26 | a new card starts with the flag clear |
| RecipeCard.Card.Mount | src/components/RecipeCard.tsx:28-32 | the flag becomes "the stored favourites (empty when missing) hold this id", so the card is in sync |
| RecipeCard.Card.ToggleFavorite | src/components/RecipeCard.tsx:34-48 | writes only `favorites`, with the filtered or appended list chosen by the old flag; negates the flag; keeps agreement and at-most-once |
| ApiKeyInput.KeyForm.constructor | src/components/ApiKeyInput.tsx:14 | the field starts empty, with no callbacks and no toasts |
| ApiKeyInput.KeyForm.Mount | src/components/ApiKeyInput.tsx:18-26 | a present non-empty stored key fills the field and is passed to `onKeySet` once; otherwise nothing changes; the store is not written |
| ApiKeyInput.KeyForm.Edit | src/components/ApiKeyInput.tsx:61 | typing replaces the field and nothing else |
| ApiKeyInput.KeyForm.Submit | src/components/ApiKeyInput.tsx:28-42 | a field that trims to something non-empty stores the trimmed key under that key only, passes the same string to `onKeySet`, and raises one success toast; otherwise nothing changes |
| ApiKeyInput.StoredKeyIsClean | src/components/ApiKeyInput.tsx:31-32 | a stored key is non-empty, has no whitespace at either end, and re-submitting it stores the same string |
| Search.SearchParams | src/pages/Index.tsx:34-40 | the parameters are exactly apiKey, query, diet, number="12", addRecipeInformation="true", in that order; diet is always present, "" when none is chosen (same list at src/components/Index.tsx:27-33) |
| SearchPage.SearchOutcome | src/pages/Index.tsx:42-58 | success iff the status is ok, the body parses, and `results` is not an empty list; success installs `results` verbatim; a failure's description is `message` if non-empty, else "No recipes found.", or the thrown error's message |
| SearchPage.Render | src/pages/Index.tsx:66-101 | no key gives the key form only; loading gives 6 placeholders; a non-empty list gives one card per recipe in order; an empty list gives the message; `undefined` throws |
| SearchPage.SuccessShowsCards | src/pages/Index.tsx:48-96 | a successful search never installs an empty list, so the page then shows one card per result |
| SearchPage.Index.constructor | src/pages/Index.tsx:16-18 | no key, an empty list, not loading |
| SearchPage.Index.SetApiKey | src/pages/Index.tsx:69 | the key form's callback sets the key and nothing else |
| SearchPage.Index.BeginSearch | src/pages/Index.tsx:21-40 | with no key, one "API Key Missing" toast, no request, and list and loading unchanged; otherwise loading starts and the request carries `SearchParams` |
| SearchPage.Index.CompleteSearch | src/pages/Index.tsx:42-61 | success replaces the list verbatim with no toast; failure keeps the list and raises exactly one error toast; loading ends either way |
| LegacySearchPage.SearchOutcome | src/components/Index.tsx:35-50 | success iff the status is ok and the body parses; success installs `results` verbatim, even an empty list; every failure has the fixed text |
| LegacySearchPage.Render | src/components/Index.tsx:58-89 | no key gives the key form; loading gives 6 placeholders; otherwise one card per recipe, possibly none; never an empty-state message |
| LegacySearchPage.EmptyResultsDiffer | src/components/Index.tsx:43-44 | on an ok empty reply, this revision installs the list and renders an empty grid; the current one raises an error toast and would show the message |
| LegacySearchPage.NonEmptyResultsAgree | src/components/Index.tsx:43-44 | on an ok non-empty reply, both revisions install the list and render the same cards |
| LegacySearchPage.MissingResultsBreakRender | src/components/Index.tsx:44 | an ok reply without `results` sets the list to `undefined` in both revisions, and the next render throws |
| LegacySearchPage.Index.constructor | src/components/Index.tsx:16-18 | no key, an empty list, not loading |
| LegacySearchPage.Index.SetApiKey | src/components/Index.tsx:61 | the key form's callback sets the key and nothing else |
| LegacySearchPage.Index.BeginSearch | src/components/Index.tsx:21-33 | with no key, no request, no toast, no change; otherwise loading starts and the request carries `SearchParams` |
| LegacySearchPage.Index.CompleteSearch | src/components/Index.tsx:35-53 | success replaces the list verbatim; failure keeps it and raises exactly one "Failed to fetch recipes. Please try again." toast; loading ends either way |
| NewRecipe.WithField | src/pages/NewRecipe.tsx:129 | an edit replaces one field and keeps the other five |
| NewRecipe.BuildRecipe | src/pages/NewRecipe.tsx:43-53 | the id is the timestamp; title, image, instructions and ingredients are copied; the two numbers are what `parseInt` reads from the fields |
| NewRecipe.BuildRecipeParsesNumbers | src/pages/NewRecipe.tsx:49-51 | minutes "30" and servings "4" are stored as the integers 30 and 4 |
| NewRecipe.Form.constructor | src/pages/NewRecipe.tsx:21-35 | the form starts as six empty strings |
| NewRecipe.Form.Edit | src/pages/NewRecipe.tsx:129-265 | each input's change handler replaces its own field |
| NewRecipe.Form.Submit | src/pages/NewRecipe.tsx:37-71 | stored `custom_recipes` (empty when missing) becomes itself followed by the new record; no other key is written; one toast; one navigation to "/favorites" |
| Favorites.TabView | src/pages/Favorites.tsx:87-108 | a tab shows its empty state iff its list is empty, otherwise one card per recipe in stored order |
| Favorites.Page.constructor | src/pages/Favorites.tsx:17-18 | both lists start empty |
| Favorites.Page.Load | src/pages/Favorites.tsx:20-25 | both lists are read from the store, a missing key giving `[]`; the store is not written |

## Left out

- Styling, JSX markup, toast rendering and routing. Toasts, `onKeySet` calls and navigation are kept only as recorded event sequences.
- `tailwind.config.ts` and the search form in `src/components/RecipeSearch.tsx`. The form passes `query` and `diet` on unchanged, so both are arbitrary strings here.
- `fetch`, the endpoint URL and `URLSearchParams` percent-encoding. The request is an ordered list of name/value pairs. The outcome is a `Search.Response` value passed in.
- A reply body that parses to something other than an object (such as `null`).
- The "Something went wrong." fallback in `src/pages/Index.tsx`. Every value thrown there is an `Error`, so the fallback is unreachable.
- JSON text in local storage. A stored value of the wrong kind would make `JSON.parse` or the list methods throw. `Store.Valid()` rules it out as a precondition.
- `Date.now()`. `NewRecipe.Form.Submit` takes the timestamp as a parameter.
- `parseInt` beyond optional whitespace, sign and decimal digits. The `0x` hexadecimal prefix is not modelled, since a number input cannot hold one.
- Strings.ParseInt: returns the exact integer, so `NewRecipe.BuildRecipe` and `NewRecipe.Form.Submit` store it exactly; JavaScript's `parseInt` returns a double, which rounds integers above 2^53 (for "99999999999999999999" the app stores 100000000000000000000, the model the exact value).
- The browser's `type="number"`, `min="1"` and `type="url"` checks. `NewRecipe.Submittable` asks only that the required fields are non-empty and that both numeric fields parse.
- Overlapping searches and the last-response-wins race. `BeginSearch` requires that no search is loading, since the search button is disabled while one is.
- Other writers to the store: another card for the same recipe, or another browser tab. The toggle guarantees hold only while `Card.InSync()` holds.
- React's effect scheduling. Each `Mount` is a method the caller runs once a component mounts.
- Recipe detail fetching and per-recipe notes. Their code is not part of this model.

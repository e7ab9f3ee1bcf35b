/**
 * The browser's local storage as seen by the app: string keys mapped to
 * values. JSON encoding is taken to round-trip exactly, so the store holds
 * typed values instead of JSON text.
 */
module Storage {
  import opened Common

  datatype Value = Text(text: string) | RecipeList(recipes: seq<Recipe>)

  const FavoritesKey: string := "favorites"
  const CustomRecipesKey: string := "custom_recipes"
  const ApiKeyKey: string := "spoonacular_api_key"

  class Store {
    var entries: map<string, Value>

    constructor (initial: map<string, Value>)
      ensures entries == initial
    {
      entries := initial;
    }

    /** Every key the app knows holds the kind of value the app writes there. */
    ghost predicate Valid()
      reads this
    {
      (FavoritesKey in entries ==> entries[FavoritesKey].RecipeList?) &&
      (CustomRecipesKey in entries ==> entries[CustomRecipesKey].RecipeList?) &&
      (ApiKeyKey in entries ==> entries[ApiKeyKey].Text?)
    }

    /** `JSON.parse(localStorage.getItem(key) || "[]")`: a missing key reads as the empty list. */
    function RecipesAt(key: string): (r: seq<Recipe>)
      reads this
      requires key in entries ==> entries[key].RecipeList?
      ensures key !in entries ==> r == []
      ensures key in entries ==> entries[key] == RecipeList(r)
    {
      if key in entries then entries[key].recipes else []
    }

    /** `localStorage.getItem(key)` for a key holding raw text; `None` stands for `null`. */
    function TextAt(key: string): (r: Option<string>)
      reads this
      requires key in entries ==> entries[key].Text?
      ensures r.None? <==> key !in entries
      ensures r.Some? ==> entries[key] == Text(r.value)
    {
      if key in entries then Some(entries[key].text) else None
    }

    /** `localStorage.setItem(key, value)`: overwrites one key and no other. */
    method SetItem(key: string, v: Value)
      modifies this
      ensures entries == old(entries)[key := v]
    {
      entries := entries[key := v];
    }
  }
}

/**
 * The collection page: two tabs, one for favourited recipes and one for
 * recipes the user created, each read from the store on mount.
 */
module Favorites {
  import opened Common
  import opened Storage

  datatype Tab = FavoritesTab | CustomTab

  /** A tab's content: its empty state, or a grid with one card per recipe. */
  datatype TabContent = EmptyState(tab: Tab) | Grid(cards: seq<Recipe>)

  /** A tab shows its empty state iff its list is empty, else one card per recipe in stored order. */
  function TabView(tab: Tab, recipes: seq<Recipe>): (v: TabContent)
    ensures v == EmptyState(tab) <==> recipes == []
    ensures v.EmptyState? ==> v.tab == tab
    ensures v.Grid? ==> v.cards == recipes && |v.cards| > 0
  {
    if |recipes| == 0 then EmptyState(tab) else Grid(recipes)
  }

  class Page {
    const store: Store
    var favorites: seq<Recipe>
    var customRecipes: seq<Recipe>

    constructor (store: Store)
      ensures this.store == store && favorites == [] && customRecipes == []
    {
      this.store := store;
      favorites := [];
      customRecipes := [];
    }

    /**
     * The mount effect: both lists are read from the store, a missing key
     * reading as the empty list; the store is not written.
     */
    method Load()
      requires store.Valid()
      modifies this
      ensures favorites == store.RecipesAt(FavoritesKey)
      ensures customRecipes == store.RecipesAt(CustomRecipesKey)
      ensures FavoritesKey !in store.entries ==> favorites == []
      ensures CustomRecipesKey !in store.entries ==> customRecipes == []
      ensures store.entries == old(store.entries)
    {
      var storedFavorites := store.RecipesAt(FavoritesKey);
      var storedCustomRecipes := store.RecipesAt(CustomRecipesKey);
      favorites := storedFavorites;
      customRecipes := storedCustomRecipes;
    }
  }
}

/**
 * A recipe card and its heart button. The card keeps an `isFavorite` flag
 * read from the stored `favorites` list on mount; a toggle rewrites that list
 * by removing or appending the card's recipe, choosing by the flag and not
 * by what the store holds.
 */
module RecipeCard {
  import opened Common
  import opened Storage

  /** `favorites.some(fav => fav.id === id)` */
  predicate HasId(favorites: seq<Recipe>, id: int) {
    exists i :: 0 <= i < |favorites| && favorites[i].id == id
  }

  /** How many entries of the list carry the id. */
  function CountId(favorites: seq<Recipe>, id: int): nat {
    if favorites == [] then 0
    else (if favorites[0].id == id then 1 else 0) + CountId(favorites[1..], id)
  }

  lemma {:induction false} HasIdIffCounted(favorites: seq<Recipe>, id: int)
    ensures HasId(favorites, id) <==> CountId(favorites, id) > 0
  {
    if favorites != [] {
      HasIdIffCounted(favorites[1..], id);
      if HasId(favorites[1..], id) {
        var i :| 0 <= i < |favorites[1..]| && favorites[1..][i].id == id;
        assert favorites[i + 1].id == id;
      }
      if HasId(favorites, id) && favorites[0].id != id {
        var i :| 0 <= i < |favorites| && favorites[i].id == id;
        assert favorites[1..][i - 1].id == id;
      }
    }
  }

  lemma {:induction false} CountIdAppend(a: seq<Recipe>, b: seq<Recipe>, id: int)
    ensures CountId(a + b, id) == CountId(a, id) + CountId(b, id)
  {
    if a == [] {
      assert a + b == b;
    } else {
      assert (a + b)[1..] == a[1..] + b;
      CountIdAppend(a[1..], b, id);
    }
  }

  /**
   * `favorites.filter(fav => fav.id !== id)`: every entry with the id is gone,
   * every other entry stays.
   */
  function Without(favorites: seq<Recipe>, id: int): (r: seq<Recipe>)
    ensures forall x :: x in r <==> x in favorites && x.id != id
    ensures |r| == |favorites| - CountId(favorites, id)
  {
    if favorites == [] then []
    else if favorites[0].id == id then Without(favorites[1..], id)
    else [favorites[0]] + Without(favorites[1..], id)
  }

  /** Filtering distributes over concatenation, so the kept entries keep their order. */
  lemma {:induction false} WithoutAppend(a: seq<Recipe>, b: seq<Recipe>, id: int)
    ensures Without(a + b, id) == Without(a, id) + Without(b, id)
  {
    if a == [] {
      assert a + b == b;
    } else {
      assert (a + b)[1..] == a[1..] + b;
      WithoutAppend(a[1..], b, id);
    }
  }

  /** Filtering out an id the list does not hold leaves it exactly as it was. */
  lemma {:induction false} WithoutAbsent(favorites: seq<Recipe>, id: int)
    requires !HasId(favorites, id)
    ensures Without(favorites, id) == favorites
  {
    if favorites != [] {
      assert favorites[0].id != id;
      assert !HasId(favorites[1..], id) by {
        forall i | 0 <= i < |favorites[1..]| ensures favorites[1..][i].id != id {
          assert favorites[1..][i] == favorites[i + 1];
        }
      }
      WithoutAbsent(favorites[1..], id);
      assert favorites == [favorites[0]] + favorites[1..];
    }
  }

  /** The list one toggle writes, given the stored list and the card's flag. */
  function Toggle(favorites: seq<Recipe>, recipe: Recipe, isFavorite: bool): seq<Recipe> {
    if isFavorite then Without(favorites, recipe.id) else favorites + [recipe]
  }

  /**
   * Removing while the flag is set drops every entry with the id, keeping the
   * others in order; adding while it is clear appends the recipe after the
   * unchanged old entries.
   */
  lemma ToggleEffect(favorites: seq<Recipe>, recipe: Recipe, isFavorite: bool)
    ensures var r := Toggle(favorites, recipe, isFavorite);
      if isFavorite then
        !HasId(r, recipe.id) && |r| == |favorites| - CountId(favorites, recipe.id) &&
        forall x :: x in r <==> x in favorites && x.id != recipe.id
      else
        |r| == |favorites| + 1 && r[..|favorites|] == favorites && r[|favorites|] == recipe
  {
  }

  /**
   * If the flag agrees with the store before a toggle, it agrees after, and
   * the stored list then holds the id at most once.
   */
  lemma {:induction false} ToggleKeepsSync(favorites: seq<Recipe>, recipe: Recipe)
    ensures var r := Toggle(favorites, recipe, HasId(favorites, recipe.id));
      HasId(r, recipe.id) == !HasId(favorites, recipe.id) && CountId(r, recipe.id) <= 1
  {
    var id := recipe.id;
    var r := Toggle(favorites, recipe, HasId(favorites, id));
    if HasId(favorites, id) {
      HasIdIffCounted(r, id);
    } else {
      HasIdIffCounted(favorites, id);
      CountIdAppend(favorites, [recipe], id);
      assert [recipe][1..] == [];
      assert r[|favorites|].id == id;
    }
  }

  /** An add followed by a remove restores the original list exactly. */
  lemma {:induction false} AddThenRemoveRestores(favorites: seq<Recipe>, recipe: Recipe)
    requires !HasId(favorites, recipe.id)
    ensures Toggle(Toggle(favorites, recipe, false), recipe, true) == favorites
  {
    WithoutAppend(favorites, [recipe], recipe.id);
    WithoutAbsent(favorites, recipe.id);
    assert Without([recipe], recipe.id) == [];
  }

  /** The stored list and the flag after `n` toggles. */
  function Toggles(favorites: seq<Recipe>, recipe: Recipe, isFavorite: bool, n: nat): (seq<Recipe>, bool)
    decreases n
  {
    if n == 0 then (favorites, isFavorite)
    else Toggles(Toggle(favorites, recipe, isFavorite), recipe, !isFavorite, n - 1)
  }

  /**
   * Starting from a freshly mounted card (flag read from the store) with no
   * other writer: the flag keeps agreeing with the store, the id is present
   * iff it was present at mount xor the number of toggles is odd, and after
   * the first toggle the id is stored at most once.
   */
  lemma {:induction false} TogglesFromMount(favorites: seq<Recipe>, recipe: Recipe, n: nat)
    ensures var (r, flag) := Toggles(favorites, recipe, HasId(favorites, recipe.id), n);
      flag == HasId(r, recipe.id) &&
      (HasId(r, recipe.id) <==> (HasId(favorites, recipe.id) != (n % 2 == 1))) &&
      (n > 0 ==> CountId(r, recipe.id) <= 1)
    decreases n
  {
    if n > 0 {
      var next := Toggle(favorites, recipe, HasId(favorites, recipe.id));
      ToggleKeepsSync(favorites, recipe);
      TogglesFromMount(next, recipe, n - 1);
      if n == 1 {
        assert Toggles(next, recipe, HasId(next, recipe.id), 0) == (next, HasId(next, recipe.id));
      }
    }
  }

  /**
   * A recipe absent at mount: after an even number of toggles the stored list
   * is exactly the original, after an odd number it is the original followed
   * by the recipe.
   */
  lemma {:induction false} TogglesFromAbsent(favorites: seq<Recipe>, recipe: Recipe, n: nat)
    requires !HasId(favorites, recipe.id)
    ensures Toggles(favorites, recipe, false, n).0 ==
      if n % 2 == 0 then favorites else favorites + [recipe]
    decreases n
  {
    if n >= 2 {
      var added := favorites + [recipe];
      assert Toggle(favorites, recipe, false) == added;
      assert Toggles(favorites, recipe, false, n) == Toggles(added, recipe, true, n - 1);
      AddThenRemoveRestores(favorites, recipe);
      assert Toggle(added, recipe, true) == favorites;
      assert Toggles(added, recipe, true, n - 1) == Toggles(favorites, recipe, false, n - 2);
      TogglesFromAbsent(favorites, recipe, n - 2);
    } else if n == 1 {
      assert Toggles(favorites, recipe, false, 1) == Toggles(favorites + [recipe], recipe, true, 0);
    }
  }

  class Card {
    const store: Store
    const recipe: Recipe
    var isFavorite: bool

    /** `useState(false)`: a new card shows an empty heart until mounted. */
    constructor (store: Store, recipe: Recipe)
      ensures this.store == store && this.recipe == recipe && !isFavorite
    {
      this.store := store;
      this.recipe := recipe;
      isFavorite := false;
    }

    /** The card's flag agrees with the stored `favorites` list. */
    ghost predicate InSync()
      reads this, store
    {
      store.Valid() && isFavorite == HasId(store.RecipesAt(FavoritesKey), recipe.id)
    }

    /** The mount effect: the flag becomes "the stored list holds this id". */
    method Mount()
      requires store.Valid()
      modifies this
      ensures isFavorite == HasId(store.RecipesAt(FavoritesKey), recipe.id)
      ensures InSync()
    {
      var favorites := store.RecipesAt(FavoritesKey);
      isFavorite := HasId(favorites, recipe.id);
    }

    /**
     * Read the stored list, filter or append by the flag, write the whole list
     * back under `favorites` only, and negate the flag.
     */
    method ToggleFavorite()
      requires store.Valid()
      modifies this, store
      ensures store.Valid()
      ensures store.entries == old(store.entries)[FavoritesKey :=
        RecipeList(Toggle(old(store.RecipesAt(FavoritesKey)), recipe, old(isFavorite)))]
      ensures isFavorite == !old(isFavorite)
      ensures old(InSync()) ==> InSync() && CountId(store.RecipesAt(FavoritesKey), recipe.id) <= 1
    {
      ghost var wasInSync := InSync();
      var favorites := store.RecipesAt(FavoritesKey);
      var newFavorites;
      if isFavorite {
        newFavorites := Without(favorites, recipe.id);
      } else {
        newFavorites := favorites + [recipe];
      }
      store.SetItem(FavoritesKey, RecipeList(newFavorites));
      isFavorite := !isFavorite;
      if wasInSync {
        ToggleKeepsSync(favorites, recipe);
      }
    }
  }
}

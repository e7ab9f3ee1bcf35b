/**
 * The recipe-creation form. Submitting builds a record from the form, with
 * the two numeric fields run through `parseInt` and the current time as its
 * id, appends it to the stored `custom_recipes` list, raises a toast and
 * navigates to the collection page.
 */
module NewRecipe {
  import opened Common
  import opened Storage
  import opened Strings

  /** The form state: six strings, as typed. */
  datatype RecipeForm = RecipeForm(
    title: string,
    image: string,
    readyInMinutes: string,
    servings: string,
    instructions: string,
    ingredients: string)

  datatype Field = Title | Image | ReadyInMinutes | Servings | Instructions | Ingredients

  const EmptyForm: RecipeForm := RecipeForm("", "", "", "", "", "")
  const CreatedToast: Toast := Toast("Recipe created", "Your recipe has been saved successfully", false)
  const CollectionRoute: string := "/favorites"

  function FieldValue(form: RecipeForm, field: Field): string {
    match field
    case Title => form.title
    case Image => form.image
    case ReadyInMinutes => form.readyInMinutes
    case Servings => form.servings
    case Instructions => form.instructions
    case Ingredients => form.ingredients
  }

  /** `setRecipe({ ...recipe, field: value })`: one field replaced, the other five kept. */
  function WithField(form: RecipeForm, field: Field, text: string): (r: RecipeForm)
    ensures FieldValue(r, field) == text
    ensures forall other :: other != field ==> FieldValue(r, other) == FieldValue(form, other)
  {
    match field
    case Title => form.(title := text)
    case Image => form.(image := text)
    case ReadyInMinutes => form.(readyInMinutes := text)
    case Servings => form.(servings := text)
    case Instructions => form.(instructions := text)
    case Ingredients => form.(ingredients := text)
  }

  /**
   * What the browser checks before the submit handler runs: every field is
   * `required`, and the two `type="number"` fields hold numbers, which
   * `parseInt` reads.
   */
  predicate Submittable(form: RecipeForm) {
    form.title != "" && form.image != "" && form.instructions != "" && form.ingredients != "" &&
    ParseInt(form.readyInMinutes).Some? && ParseInt(form.servings).Some?
  }

  /**
   * The record `handleSubmit` builds: id is the timestamp, the numeric fields
   * are what `parseInt` reads from the form, every other field is copied.
   */
  function BuildRecipe(form: RecipeForm, now: int): (r: Recipe)
    requires Submittable(form)
    ensures r.id == now
    ensures r.title == form.title && r.image == form.image
    ensures Some(r.readyInMinutes) == ParseInt(form.readyInMinutes)
    ensures Some(r.servings) == ParseInt(form.servings)
    ensures r.custom == Some(CustomFields(form.instructions, form.ingredients))
  {
    Recipe(now, form.title, form.image,
           ParseInt(form.readyInMinutes).value, ParseInt(form.servings).value,
           Some(CustomFields(form.instructions, form.ingredients)))
  }

  /** Minutes "30" and servings "4" are stored as the integers 30 and 4. */
  lemma BuildRecipeParsesNumbers(form: RecipeForm, now: int)
    requires form.title != "" && form.image != "" && form.instructions != "" && form.ingredients != ""
    requires form.readyInMinutes == "30" && form.servings == "4"
    ensures Submittable(form)
    ensures BuildRecipe(form, now).readyInMinutes == 30 && BuildRecipe(form, now).servings == 4
  {
    ParseIntExamples();
  }

  class Form {
    const store: Store
    /** The form state, named `recipe` in the component. */
    var recipe: RecipeForm
    var toasts: seq<Toast>
    var navigations: seq<string>

    /** The form starts as six empty strings. */
    constructor (store: Store)
      ensures this.store == store && recipe == EmptyForm && toasts == [] && navigations == []
    {
      this.store := store;
      recipe := EmptyForm;
      toasts := [];
      navigations := [];
    }

    /** An input's `onChange` handler. */
    method Edit(field: Field, text: string)
      modifies this
      ensures recipe == WithField(old(recipe), field, text)
      ensures toasts == old(toasts) && navigations == old(navigations)
    {
      recipe := WithField(recipe, field, text);
    }

    /**
     * `handleSubmit`: the stored `custom_recipes` list (empty when missing)
     * becomes itself followed by the new record; no other key is written; one
     * toast is raised and the app navigates to the collection page.
     */
    method Submit(now: int)
      requires store.Valid() && Submittable(recipe)
      modifies this, store
      ensures store.Valid() && recipe == old(recipe)
      ensures store.entries == old(store.entries)[CustomRecipesKey :=
        RecipeList(old(store.RecipesAt(CustomRecipesKey)) + [BuildRecipe(old(recipe), now)])]
      ensures toasts == old(toasts) + [CreatedToast]
      ensures navigations == old(navigations) + [CollectionRoute]
    {
      var newRecipe := BuildRecipe(recipe, now);
      var customRecipes := store.RecipesAt(CustomRecipesKey);
      var updated := customRecipes + [newRecipe];
      store.SetItem(CustomRecipesKey, RecipeList(updated));
      toasts := toasts + [CreatedToast];
      navigations := navigations + [CollectionRoute];
    }
  }
}

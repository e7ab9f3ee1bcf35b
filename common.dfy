/** Values shared by every component of the recipe app. */
module Common {

  datatype Option<+T> = None | Some(value: T)

  /** The two free-text fields a user-authored recipe carries besides the card fields. */
  datatype CustomFields = CustomFields(instructions: string, ingredients: string)

  /**
   * A recipe as the cards display it and as the store keeps it. Search results
   * carry more fields than these; none of the others is read by the app.
   * `custom` is present for records built by the recipe-creation form.
   */
  datatype Recipe = Recipe(
    id: int,
    title: string,
    image: string,
    readyInMinutes: int,
    servings: int,
    custom: Option<CustomFields>)

  /** A toast notification, recorded as an event rather than rendered. */
  datatype Toast = Toast(title: string, description: string, destructive: bool)
}

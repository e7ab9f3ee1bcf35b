/**
 * The API-key form. On mount it adopts a stored key; on submit it trims the
 * field and, when something is left, stores it, hands it to the page through
 * `onKeySet` and raises a success toast.
 */
module ApiKeyInput {
  import opened Common
  import opened Storage
  import opened Strings

  const SavedToast: Toast :=
    Toast("API Key Saved", "Your Spoonacular API key has been saved successfully.", false)

  class KeyForm {
    const store: Store
    /** The text field's contents. */
    var apiKey: string
    /** The arguments of every `onKeySet` call so far, oldest first. */
    var keySetCalls: seq<string>
    var toasts: seq<Toast>

    constructor (store: Store)
      ensures this.store == store && apiKey == "" && keySetCalls == [] && toasts == []
    {
      this.store := store;
      apiKey := "";
      keySetCalls := [];
      toasts := [];
    }

    /**
     * The mount effect. A stored key that is present and non-empty fills the
     * field and is passed to `onKeySet` once; an absent or empty one changes
     * nothing. The store is only read.
     */
    method Mount()
      requires store.Valid()
      modifies this
      ensures var saved := store.TextAt(ApiKeyKey);
        if saved.Some? && saved.value != "" then
          apiKey == saved.value && keySetCalls == old(keySetCalls) + [saved.value]
        else
          apiKey == old(apiKey) && keySetCalls == old(keySetCalls)
      ensures toasts == old(toasts)
    {
      var savedKey := store.TextAt(ApiKeyKey);
      if savedKey.Some? && savedKey.value != "" {
        apiKey := savedKey.value;
        keySetCalls := keySetCalls + [savedKey.value];
      }
    }

    /** The field's `onChange` handler. */
    method Edit(text: string)
      modifies this
      ensures apiKey == text
      ensures keySetCalls == old(keySetCalls) && toasts == old(toasts)
    {
      apiKey := text;
    }

    /**
     * Submit. A field that trims to something non-empty stores the trimmed
     * key under `spoonacular_api_key` (no other key), passes the same string
     * to `onKeySet` and raises exactly one success toast. An empty or
     * whitespace-only field changes nothing. The field itself is left as typed.
     */
    method Submit()
      requires store.Valid()
      modifies this, store
      ensures store.Valid() && apiKey == old(apiKey)
      ensures var key := Trim(old(apiKey));
        if key != "" then
          store.entries == old(store.entries)[ApiKeyKey := Text(key)] &&
          keySetCalls == old(keySetCalls) + [key] &&
          toasts == old(toasts) + [SavedToast]
        else
          store.entries == old(store.entries) &&
          keySetCalls == old(keySetCalls) && toasts == old(toasts)
    {
      var key := Trim(apiKey);
      if key != "" {
        store.SetItem(ApiKeyKey, Text(key));
        keySetCalls := keySetCalls + [key];
        toasts := toasts + [SavedToast];
      }
    }
  }

  /**
   * A key that submission stores is non-empty, has no whitespace at either
   * end, and submitting it again stores the same string.
   */
  lemma StoredKeyIsClean(typed: string)
    requires Trim(typed) != ""
    ensures var key := Trim(typed);
      !IsWhitespace(key[0]) && !IsWhitespace(key[|key| - 1]) && Trim(key) == key
  {
    TrimIdempotent(typed);
  }
}

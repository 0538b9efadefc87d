/**
 * The browser's `localStorage`, as the pages use it: a string-keyed store
 * whose entries are either JSON documents written with `JSON.stringify`
 * (kept here as the value they decode back to) or text written verbatim.
 */
module Storage {
  import opened Wrappers
  import opened Conversations
  import opened Accounts

  /** The JSON documents the application writes, already decoded. */
  datatype Value =
    | ConversationList(conversations: seq<Conversation>)
    | IdOrNull(id: Option<string>)
    | Flag(b: bool)
    | Settings(fields: map<string, string>)
    | AccountList(accounts: seq<Account>)
    | AuthUser(email: string, name: Option<string>, provider: Option<string>)

  /**
   * A `Json` entry's text is a non-empty JSON document that `JSON.parse`
   * turns back into its value. A `Text` entry is a string stored as it is,
   * which a reader that parses JSON cannot decode.
   */
  datatype Entry = Json(value: Value) | Text(text: string)

  type Items = map<string, Entry>

  /** The text of the entry is non-empty (`if (localStorage.getItem(key))`). */
  predicate IsTruthy(e: Entry) {
    e.Json? || e.text != ""
  }

  /** The text of the entry is exactly `"true"`. */
  predicate IsTrueText(e: Entry) {
    e == Text("true") || e == Json(Flag(true))
  }

  /**
   * `loadFromStorage(key, default)`: the stored document, or the default
   * when reading the store throws (`view` is None), the key is absent or
   * empty, or the text does not parse.
   */
  function LoadFromStorage(view: Option<Items>, key: string, default: Value): (v: Value)
    ensures view.Some? && key in view.value && view.value[key].Json? ==> v == view.value[key].value
    ensures view.None? || key !in view.value || view.value[key].Text? ==> v == default
  {
    if view.Some? && key in view.value && view.value[key].Json? then view.value[key].value else default
  }

  /** What was saved under a key is what a later load returns. */
  lemma LoadAfterSave(items: Items, key: string, v: Value, default: Value)
    ensures LoadFromStorage(Some(items[key := Json(v)]), key, default) == v
  {
  }

  /** A load after the key was removed gives the caller's default. */
  lemma LoadAfterRemove(items: Items, keys: set<string>, key: string, default: Value)
    requires key in keys
    ensures LoadFromStorage(Some(items - keys), key, default) == default
  {
  }

  /** Writes to one key do not change what a load of another key returns. */
  lemma LoadOtherKey(items: Items, written: string, e: Entry, key: string, default: Value)
    requires written != key
    ensures LoadFromStorage(Some(items[written := e]), key, default) == LoadFromStorage(Some(items), key, default)
  {
  }

  /**
   * The store. When `enabled` is false every access throws, as it does in
   * a browser where storage is disabled. When `full` is true the store can
   * be read and keys removed, but every `setItem` throws, as it does once
   * the quota is exhausted.
   */
  class Store {
    var items: Items
    const enabled: bool
    const full: bool

    constructor (initial: Items, enabled: bool, full: bool)
      ensures items == initial && this.enabled == enabled && this.full == full
    {
      items := initial;
      this.enabled := enabled;
      this.full := full;
    }

    /** What a read sees: the entries, or None when reading throws. */
    function View(): Option<Items>
      reads this
    {
      if enabled then Some(items) else None
    }

    /** `setItem` succeeds. */
    predicate Writable() {
      enabled && !full
    }

    /** `localStorage.setItem(key, text)`; `ok` is false when it throws. */
    method SetItem(key: string, e: Entry) returns (ok: bool)
      modifies this
      ensures ok == Writable()
      ensures items == if Writable() then old(items)[key := e] else old(items)
    {
      ok := Writable();
      if ok {
        items := items[key := e];
      }
    }

    /** `localStorage.removeItem(key)`; a key that is absent is no error, and a full store still removes. */
    method RemoveItem(key: string) returns (ok: bool)
      modifies this
      ensures ok == enabled
      ensures items == if enabled then old(items) - {key} else old(items)
    {
      ok := enabled;
      if enabled {
        items := items - {key};
      }
    }
  }
}

/** The browser's `localStorage` as the client uses it: one process-wide
    string-keyed store, last write wins, no expiry. A value is either raw text
    (`setItem(key, text)`) or the JSON text of one of the documents the
    client writes; JSON text is represented by the document it encodes. */
module Storage {
  import opened Common

  const FavoritesKey := "favorites"
  const LastSearchKey := "lastSearch"
  const DarkModeKey := "darkMode"
  const UserKey := "user"

  datatype StoredValue =
    | Text(text: string)                  // stored as is
    | FavoritesJson(movies: seq<Movie>)   // JSON.stringify(favorites)
    | FlagJson(flag: bool)                // JSON.stringify(darkMode)
    | UserJson(user: User)                // JSON.stringify(userData)

  /** Whether `if (localStorage.getItem(key))` takes the branch: raw text is
      falsy only when empty, and JSON text is never empty. */
  predicate Truthy(v: StoredValue) {
    !v.Text? || v.text != ""
  }

  /** Outcome of reading stored state at start-up. `Malformed` stands for the
      exception `JSON.parse` throws when a key holds something else than the
      document its owner writes. */
  datatype Hydration = Hydrated | Malformed(key: string)

  class LocalStorage {
    var entries: map<string, StoredValue>

    constructor (initial: map<string, StoredValue>)
      ensures entries == initial
    {
      entries := initial;
    }

    /** `getItem`: null when the key is absent. */
    function GetItem(key: string): (v: Option<StoredValue>)
      reads this
      ensures v.Some? <==> key in entries
      ensures v.Some? ==> v.value == entries[key]
    {
      if key in entries then Some(entries[key]) else None
    }

    /** `setItem`: replaces the value of one key. */
    method SetItem(key: string, value: StoredValue)
      modifies this
      ensures entries == old(entries)[key := value]
    {
      entries := entries[key := value];
    }

    /** `removeItem`: drops one key; absent keys are fine. */
    method RemoveItem(key: string)
      modifies this
      ensures entries == old(entries) - {key}
    {
      entries := entries - {key};
    }
  }
}

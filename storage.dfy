/** The browser's `localStorage`, as a map from keys to strings, and the two keys the
    application keeps there. */
module Storage {
  import opened Wrappers

  /** The serialised signed-in user. */
  const UserKey: string := "lms_user"
  /** The bearer token. */
  const TokenKey: string := "token"

  /** `getItem(key)` on store contents `items`: the stored string, or None (JavaScript null)
      when the key is absent. */
  function GetItem(items: map<string, string>, key: string): (r: Option<string>)
    ensures r.Some? <==> key in items
    ensures r.Some? ==> r.value == items[key]
  {
    if key in items then Some(items[key]) else None
  }

  class LocalStorage {
    var items: map<string, string>

    constructor (initial: map<string, string>)
      ensures items == initial
    {
      items := initial;
    }

    /** `getItem(key)` on the current contents. */
    function Get(key: string): (r: Option<string>)
      reads this
      ensures r.Some? <==> key in items
    {
      GetItem(items, key)
    }

    /** `setItem(key, value)`. */
    method Set(key: string, value: string)
      modifies this
      ensures items == old(items)[key := value]
    {
      items := items[key := value];
    }

    /** `removeItem(key)`; removing an absent key changes nothing. */
    method Remove(key: string)
      modifies this
      ensures items == old(items) - {key}
    {
      items := items - {key};
    }
  }
}

/**
 * The browser's `localStorage`: a map from keys to string values.
 * `getItem` gives `null` (here `None`) for a key that is not stored.
 */
module LocalStorage {
  import opened Common

  type Store = map<string, string>

  function GetItem(s: Store, key: string): (v: Option<string>)
    ensures v.Some? <==> key in s
    ensures v.Some? ==> v.value == s[key]
  {
    if key in s then Some(s[key]) else None
  }

  /** `setItem(key, value)`: `key` now holds `value`; every other key keeps its value. */
  function SetItem(s: Store, key: string, value: string): (r: Store)
    ensures r.Keys == s.Keys + {key}
    ensures GetItem(r, key) == Some(value)
    ensures forall k :: k != key ==> GetItem(r, k) == GetItem(s, k)
  {
    s[key := value]
  }

  /** `removeItem(key)`: `key` is absent afterwards; every other key keeps its value. */
  function RemoveItem(s: Store, key: string): (r: Store)
    ensures r.Keys == s.Keys - {key}
    ensures GetItem(r, key) == None
    ensures forall k :: k != key ==> GetItem(r, k) == GetItem(s, k)
  {
    s - {key}
  }
}

/** The browser's string key-value store (`window.localStorage`), as a value. */
module Storage {

  datatype Option<+T> = None | Some(value: T)

  /** Every key and every value in the store is a string. */
  type Store = map<string, string>

  /** `localStorage.getItem(key)`: the stored string, or `null` (here `None`) when the key is absent. */
  function GetItem(store: Store, key: string): (r: Option<string>)
    ensures r.Some? <==> key in store
    ensures r.Some? ==> r.value == store[key]
  {
    if key in store then Some(store[key]) else None
  }
}

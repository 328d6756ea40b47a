/**
 * src/lib/token-storage.ts: the access token persisted under one key of the
 * browser's local storage. Outside a browser (`typeof window === "undefined"`)
 * there is no storage, written here as a `null` storage reference, and both
 * operations do nothing.
 */
module TokenStorage {
  import opened Wrappers
  import JsStrings
  import Config

  /** `window.localStorage`: a string-to-string map changed in place. */
  class Storage {
    var items: map<string, string>

    constructor (items: map<string, string>)
      ensures this.items == items
    {
      this.items := items;
    }

    /** `getItem(key)`: `null` for a missing key. */
    method GetItem(key: string) returns (r: Option<string>)
      ensures r.Some? <==> key in items
      ensures r.Some? ==> r.value == items[key]
    {
      r := if key in items then Some(items[key]) else None;
    }

    /** `setItem(key, value)`. */
    method SetItem(key: string, value: string)
      modifies this
      ensures items == old(items)[key := value]
    {
      items := items[key := value];
    }

    /** `removeItem(key)`. */
    method RemoveItem(key: string)
      modifies this
      ensures items == old(items) - {key}
    {
      items := items - {key};
    }
  }

  /** The token a storage map holds, if any. */
  function Stored(items: map<string, string>): (r: Option<string>)
    ensures r.Some? <==> Config.TokenStorageKey in items
    ensures r.Some? ==> r.value == items[Config.TokenStorageKey]
  {
    if Config.TokenStorageKey in items then Some(items[Config.TokenStorageKey]) else None
  }

  /**
   * The storage map after `storeToken(value)` in a browser: the token key
   * holds a truthy `value` and is gone otherwise; every other key is as it was.
   */
  function AfterStore(items: map<string, string>, value: Option<string>): (r: map<string, string>)
    ensures Stored(r) == (if JsStrings.TruthyString(value) then value else None)
    ensures forall k :: k != Config.TokenStorageKey ==> (k in r <==> k in items)
    ensures forall k :: k != Config.TokenStorageKey && k in r ==> r[k] == items[k]
  {
    if JsStrings.TruthyString(value) then items[Config.TokenStorageKey := value.value]
    else items - {Config.TokenStorageKey}
  }

  /** Storing the same value twice leaves the storage as storing it once. */
  lemma StoreIdempotent(items: map<string, string>, value: Option<string>)
    ensures AfterStore(AfterStore(items, value), value) == AfterStore(items, value)
  {
    var once := AfterStore(items, value);
    var twice := AfterStore(once, value);
    assert twice.Keys == once.Keys;
  }

  /** A token key written only by `storeToken` never holds the empty string. */
  predicate WellFormed(items: map<string, string>) {
    Config.TokenStorageKey in items ==> items[Config.TokenStorageKey] != ""
  }

  /** `getStoredToken()`: `null` outside a browser, else the stored token or `null`. */
  method GetStoredToken(window: Storage?) returns (r: Option<string>)
    ensures window == null ==> r == None
    ensures window != null ==> r == Stored(window.items)
  {
    if window == null {
      return None;
    }
    r := window.GetItem(Config.TokenStorageKey);
  }

  /** `storeToken(value)`: nothing outside a browser; otherwise remove or overwrite the token key. */
  method StoreToken(window: Storage?, value: Option<string>)
    modifies window
    ensures window != null ==> window.items == AfterStore(old(window.items), value)
  {
    if window == null {
      return;
    }
    if !JsStrings.TruthyString(value) {
      window.RemoveItem(Config.TokenStorageKey);
      return;
    }
    window.SetItem(Config.TokenStorageKey, value.value);
  }
}

/**
 * src/components/auth/token-context.tsx: the provider that holds the token
 * in memory for every page, reading it from storage when it mounts and
 * writing storage before memory when it is changed.
 */
module TokenContext {
  import opened Wrappers
  import JsStrings
  import TokenStorage
  import Config

  const OutsideProviderMessage: string := "useToken must be used within TokenProvider"

  /** The two states of the credential: no truthy token, or one. */
  datatype AuthState = Unauthenticated | Authenticated(token: string)

  /** `TokenProvider`: its `token` state and the storage it writes through. */
  class TokenProvider {
    var token: Option<string>
    const window: TokenStorage.Storage?

    /** The first render: the token state starts as `null`. */
    constructor (window: TokenStorage.Storage?)
      ensures this.window == window
      ensures token == None
    {
      this.window := window;
      token := None;
    }

    /** The state the rest of the application sees. */
    function State(): (s: AuthState)
      reads this
      ensures s.Unauthenticated? <==> !JsStrings.TruthyString(token)
      ensures s.Authenticated? ==> Some(s.token) == token
    {
      if JsStrings.TruthyString(token) then Authenticated(token.value) else Unauthenticated
    }

    /**
     * Memory and storage agree: in a browser the token key holds exactly the
     * in-memory token when that is truthy, and is absent when it is not.
     */
    predicate Synced()
      reads this, window
    {
      window != null ==>
        TokenStorage.Stored(window.items) == (if JsStrings.TruthyString(token) then token else None)
    }

    /** The mount effect: `setTokenState(getStoredToken())`. */
    method Mount()
      modifies this
      ensures token == (if window == null then None else TokenStorage.Stored(window.items))
      ensures window != null && TokenStorage.WellFormed(window.items) ==> Synced()
      ensures window != null && TokenStorage.WellFormed(window.items) ==>
        (JsStrings.TruthyString(token) <==> Config.TokenStorageKey in window.items)
    {
      token := TokenStorage.GetStoredToken(window);
    }

    /** `setToken(value)`: `storeToken(value)`, then `setTokenState(value)`. */
    method SetToken(value: Option<string>)
      modifies this, window
      ensures token == value
      ensures window != null ==> window.items == TokenStorage.AfterStore(old(window.items), value)
      ensures Synced()
      ensures window != null ==> (JsStrings.TruthyString(token) <==> Config.TokenStorageKey in window.items)
    {
      TokenStorage.StoreToken(window, value);
      token := value;
    }
  }

  /** `useToken()`: the provider's value, or a thrown error outside any provider. */
  function UseToken(context: TokenProvider?): (r: Result<TokenProvider, string>)
    ensures r.Failure? <==> context == null
    ensures r.Failure? ==> r.error == OutsideProviderMessage
    ensures r.Success? ==> r.value == context
  {
    if context == null then Failure(OutsideProviderMessage) else Success(context)
  }
}

/**
 * src/components/auth/token-indicator.tsx: the header badge that shows a
 * masked token, or that none is set, and removes the token on request.
 */
module TokenIndicator {
  import opened Wrappers
  import opened JsStrings
  import TokenStorage
  import TokenContext
  import Config

  const NotSetMessage: string := "토큰이 설정되지 않았습니다."

  /** The three bullets between the two visible ends of the token. */
  const Bullets: string := "•••"

  /** What the indicator renders. */
  datatype View = NotSet(message: string) | Active(mask: string)

  function Min(a: int, b: int): int {
    if a <= b then a else b
  }

  /**
   * `${token.slice(0, 2)}•••${token.slice(-4)}`: the first two characters,
   * three bullets, and the last four characters (the whole token when it
   * is shorter than that).
   */
  function Mask(token: string): (r: string)
    ensures |r| == Min(2, |token|) + 3 + Min(4, |token|)
    ensures r[..Min(2, |token|)] == token[..Min(2, |token|)]
    ensures r[Min(2, |token|)..Min(2, |token|) + 3] == Bullets
    ensures r[|r| - Min(4, |token|)..] == token[|token| - Min(4, |token|)..]
    ensures |token| <= 4 ==> r[|r| - |token|..] == token
  {
    var head := Slice(token, 0, 2);
    var tail := SliceFrom(token, -4);
    assert head == token[..Min(2, |token|)];
    assert tail == token[|token| - Min(4, |token|)..];
    head + Bullets + tail
  }

  /** The rendered badge: the not-set message exactly when the token is not truthy. */
  function Render(token: Option<string>): (v: View)
    ensures v.NotSet? <==> !TruthyString(token)
    ensures v.NotSet? ==> v.message == NotSetMessage
    ensures v.Active? ==> v.mask == Mask(token.value)
  {
    if !TruthyString(token) then NotSet(NotSetMessage) else Active(Mask(token.value))
  }

  /** The remove button: `setToken(null)`. */
  method Remove(provider: TokenContext.TokenProvider)
    modifies provider, provider.window
    ensures provider.token == None
    ensures provider.window != null ==> Config.TokenStorageKey !in provider.window.items
    ensures provider.window != null ==>
      provider.window.items == TokenStorage.AfterStore(old(provider.window.items), None)
    ensures Render(provider.token) == NotSet(NotSetMessage)
  {
    provider.SetToken(None);
  }
}

/**
 * src/components/auth/token-form.tsx: the form where a user types a token;
 * submitting rejects blank input and otherwise hands the trimmed token to
 * the provider.
 */
module TokenForm {
  import opened Wrappers
  import opened JsStrings
  import TokenStorage
  import TokenContext

  const EmptyTokenMessage: string := "토큰을 입력해주세요."

  /** `TokenForm`: the input `value`, the `error` message, and the provider from `useToken()`. */
  class TokenForm {
    var value: string
    var error: Option<string>
    const provider: TokenContext.TokenProvider

    constructor (provider: TokenContext.TokenProvider)
      ensures this.provider == provider
      ensures value == "" && error == None
    {
      this.provider := provider;
      value := "";
      error := None;
    }

    /**
     * `handleSubmit`: blank input sets the error and leaves the token alone;
     * any other input clears the error and sets the trimmed token. The input
     * field keeps what was typed either way.
     */
    method HandleSubmit()
      modifies this, provider, provider.window
      ensures value == old(value)
      ensures AllWhiteSpace(value) ==>
        && error == Some(EmptyTokenMessage)
        && provider.token == old(provider.token)
        && (provider.window != null ==> provider.window.items == old(provider.window.items))
      ensures !AllWhiteSpace(value) ==>
        && error == None
        && provider.token == Some(Trim(value))
        && (provider.window != null ==>
              provider.window.items == TokenStorage.AfterStore(old(provider.window.items), Some(Trim(value))))
        && provider.Synced()
      ensures provider.token != old(provider.token) ==>
        provider.token.Some? && provider.token.value != "" && IsTrimmed(provider.token.value)
      ensures !AllWhiteSpace(value) ==>
        provider.token.Some? && provider.token.value != "" && IsTrimmed(provider.token.value)
    {
      TrimSpec(value);
      if Trim(value) == "" {
        error := Some(EmptyTokenMessage);
        return;
      }
      error := None;
      provider.SetToken(Some(Trim(value)));
    }
  }
}

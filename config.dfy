/** The configuration constants of src/lib/config.ts. */
module Config {

  /**
   * `API_BASE_URL` when `NEXT_PUBLIC_API_BASE_URL` is not set; the environment
   * lookup is fixed to this default. Being relative, this default is not a
   * base `new URL` accepts, so it throws on every call. The model assumes a
   * base against which the URL resolves, and keeps only its text.
   */
  const ApiBaseUrl: string := "/api/backend"

  /** The request header that carries the access token. */
  const TokenHeader: string := "X-Scafold-Token"

  /** The one local-storage key under which the access token is persisted. */
  const TokenStorageKey: string := "scafold-api-token"
}

/**
 * The values that the credential exchanges with its base class, and the base
 * class's helpers as collaborators. The base class `SharedTokenCacheBase`
 * comes from `.._internal.shared_token_cache`, which is not part of this
 * model, so its helpers are not given behaviour here: each one is a total
 * function supplied by the caller, and the model proves only what
 * `get_token` itself controls (which helper runs, with which arguments, and
 * what is done with its answer).
 */
module TokenCacheBase {
  import opened Wrappers

  /** A loaded token cache. The model never looks inside one. */
  type TokenCache(==)

  /** An account record as the cache returns it: a dictionary of attributes. */
  type Account = map<string, string>

  /** `account.get("username")`. */
  function AccountUsername(account: Account): Option<string>
  {
    Get(account, "username")
  }

  /** An access token: the token string and its expiry time (seconds since the epoch). */
  datatype AccessToken = AccessToken(token: string, expiresOn: int)

  /** An exception raised by a collaborator: its Python type name and its message. */
  datatype Exception = Exception(typeName: string, message: string)

  /**
   * The base-class helpers and the client's token exchange that `get_token`
   * calls. The lookups receive the cache they read, so that a lookup can
   * only see the cache `get_token` selected.
   *  - initializeCache(isCae): `_initialize_cache(is_cae=isCae)`, the cache it loads, if any;
   *  - getAccount(cache, username, tenantId): `_get_account`, or the exception it raises;
   *  - getCachedAccessToken(cache, scopes, account): `_get_cached_access_token`;
   *  - getRefreshTokens(cache, account): `_get_refresh_tokens`, in the order it yields them;
   *  - obtainTokenByRefreshToken(scopes, refreshToken, claims, tenantId, kwargs):
   *    `self._client.obtain_token_by_refresh_token`, or the exception it raises.
   */
  datatype Collaborators = Collaborators(
    initializeCache: bool -> Option<TokenCache>,
    getAccount: (TokenCache, Option<string>, Option<string>) -> Result<Account, Exception>,
    getCachedAccessToken: (TokenCache, seq<string>, Account) -> Option<AccessToken>,
    getRefreshTokens: (TokenCache, Account) -> seq<string>,
    obtainTokenByRefreshToken: (seq<string>, string, Option<string>, Option<string>, map<string, string>)
                                 -> Result<AccessToken, Exception>)
}

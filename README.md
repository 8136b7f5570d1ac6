# Shared token cache credential — a Dafny model

This project models the token-resolution logic of the Azure Identity
`SharedTokenCacheCredential`. That credential reads OAuth tokens from the
token cache that Microsoft developer tools share on one machine. Two classes
are modelled:

- `_SharedTokenCacheCredential.get_token`. It rejects an empty scope list,
  initialises its client lazily, and picks the CAE (Continuous Access
  Evaluation) cache or the standard cache. It loads that cache lazily and
  looks up the account. It returns a cached access token if one exists, and
  otherwise exchanges the first refresh token or raises
  `CredentialUnavailableError`.
- The public `SharedTokenCacheCredential` wrapper. At construction it chooses
  between the silent-authentication credential and the one above, and it
  forwards `get_token` to its choice.

The base class `SharedTokenCacheBase` (imported from
`.._internal.shared_token_cache`, shared_cache.py:13) is not part of this
model. Its lookup helpers (`_initialize_cache`, `_get_account`,
`_get_cached_access_token`, `_get_refresh_tokens`) and the client's
`obtain_token_by_refresh_token` are total functions in the `Collaborators`
record (`token_cache_base.dfy`). The caller supplies that record, so every
property holds whatever those helpers answer. `_initialize_client` takes no
argument and returns nothing, so it is not in the record; it, and the
storing of `_initialize_cache`'s result, are given effects on the fields by
the assumptions below. The loaded cache is handed to the lookups
explicitly, so "the other cache is never consulted" can be stated as a fact
about results, not just about flags.

Files:

- `wrappers.dfy`: `Option`, `Result`, and `dict.get`.
- `token_cache_base.dfy`: accounts, access tokens, collaborator exceptions,
  and the `Collaborators` record.
- `call_log.dfy`: the log of collaborator calls. It defines the step order
  every `get_token` follows (`Step`, `InOrder`), "reads only the selected
  cache" (`ReadsOnly`), and counting by step (`CountStep`), with the lemmas
  that join and count logs.
- `shared_cache.dfy`, with three parts:
  - **Specification functions.** `GetTokenOutcome` gives one `get_token`
    call's result, the fields it leaves and the calls it makes. It is built
    from `Setup` (client and cache initialisation) and `Lookups` (account,
    cached token, refresh-token exchange). `RunAll` gives a sequence of calls.
  - **Lemmas.** One per property.
  - **Classes.** `SharedTokenCacheImpl` holds the fields
    `clientInitialized`, `cache` and `caeCache`, plus a ghost call log. Its
    `GetToken` and `LookUp` run the source's steps imperatively, including
    the `for` loop over refresh tokens that returns from its first
    iteration, and are proved to agree with `GetTokenOutcome`.
    `SharedTokenCacheCredential` is the wrapper. Its backend is a
    `Backend` value, `Silent` or `Shared`.

Assumptions about the base class that the model makes, since its code is not
part of this model:
- `_initialize_client` sets `_client_initialized`.
- `_initialize_cache(is_cae)` stores what it loads in `_cae_cache` or
  `_cache` and returns it.
- A new credential has no client and no cache loaded.
- Its tenant selector is the `tenant_id` keyword argument. The class
  docstring, lines 28-29, says this keyword selects the account.
- A helper called with `is_cae` (`_get_account`, `_get_cached_access_token`,
  `_get_refresh_tokens`) reads `_cae_cache` when `is_cae` is true and
  `_cache` otherwise, and no other cache. The model hands those helpers the
  selected cache only, which is what `OtherCacheNotConsulted` rests on.

Facts about the source that the model keeps:
- `get_token` has no locking; its client and cache fields are read and
  written without synchronisation (shared_cache.py:109-147).
- Account matching (no account, several accounts) happens inside
  `_get_account`, and its exceptions propagate unchanged out of `get_token`
  (shared_cache.py:134).
- The empty-scope error is `ValueError` (shared_cache.py:118).
- The `get_token` docstring says `tenant_id` is ignored (shared_cache.py:74).
  The code passes it to `obtain_token_by_refresh_token`
  (shared_cache.py:143), and so does the model.

An exception that a collaborator raises is re-raised as it is
(`Error.Raised`), so a collaborator's own `ValueError` or
`CredentialUnavailableError` comes out as `Raised(...)`, distinct from the
two errors `get_token` raises itself (`Error.ValueError` and
`Error.CredentialUnavailable`). The properties about those two errors speak
of `get_token`'s own raise only.

## Model

All source paths are under `sdk/identity/azure-identity/azure/identity/_credentials/`
in the repository; the table gives them in full.

| member | source | states |
|---|---|---|
| SharedCache.CallsInOrder | sdk/identity/azure-identity/azure/identity/_credentials/shared_cache.py:117-145 | Whatever the collaborators answer, a call makes its collaborator calls in the fixed step order: client, cache load, account, cached token, refresh tokens, exchange. So each step happens at most once. |
| SharedCache.ReadsOnlySelectedCache | sdk/identity/azure-identity/azure/identity/_credentials/shared_cache.py:123-141 | Whatever the collaborators answer, every cache-reading call carries the `is_cae` value that `enable_cae` gave. |
| SharedCache.FieldsAfterCall | sdk/identity/azure-identity/azure/identity/_credentials/shared_cache.py:120-128 | Whatever the collaborators answer, the cache field `enable_cae` does not select is unchanged. The client is initialised afterwards exactly when it was before or a scope was given. A cache already loaded is kept and never reloaded. |
| SharedCache.EmptyScopesRejected | sdk/identity/azure-identity/azure/identity/_credentials/shared_cache.py:117-118 | An empty scope list raises `ValueError("'get_token' requires at least one scope")` with no collaborator call and no field change. `get_token`'s own `ValueError` is raised on no other path (a collaborator's `ValueError` is re-raised as `Raised`). |
| SharedCache.ClientInitializedLazily | sdk/identity/azure-identity/azure/identity/_credentials/shared_cache.py:120-121 | `_initialize_client` is called exactly when the client was not initialised and some scope was given. |
| SharedCache.ClientInitializedOnce | sdk/identity/azure-identity/azure/identity/_credentials/shared_cache.py:120-121 | Over any sequence of calls, `_initialize_client` runs at most once, and never if the client was already initialised. |
| SharedCache.ClientInitializedAfterRun | sdk/identity/azure-identity/azure/identity/_credentials/shared_cache.py:117-121 | After any sequence of calls, the client is initialised exactly when it was before or some call gave a scope. |
| SharedCache.OtherCacheNotConsulted | sdk/identity/azure-identity/azure/identity/_credentials/shared_cache.py:123-141 | Two states that differ only in the cache `enable_cae` does not select give the same result and the same calls, and leave the selected cache and the client flag the same. |
| SharedCache.SetupInOrder | sdk/identity/azure-identity/azure/identity/_credentials/shared_cache.py:120-128 | The setup calls are in step order and read only the selected cache. They initialise the client exactly when it was not initialised, and load the cache exactly when it was absent. |
| SharedCache.LookupsInOrder | sdk/identity/azure-identity/azure/identity/_credentials/shared_cache.py:134-145 | The lookup calls are in step order and come after the setup. They start with the account lookup and read only the selected cache. |
| SharedCache.CacheUnavailableRaised | sdk/identity/azure-identity/azure/identity/_credentials/shared_cache.py:126-132 | `CredentialUnavailableError("Shared token cache unavailable")` is raised by `get_token` itself exactly when a scope was given, the selected cache is absent and loading it gives none (a collaborator's `CredentialUnavailableError` is re-raised as `Raised`). The calls then end with that load: no account lookup, token lookup or exchange. |
| SharedCache.LoadedCacheKept | sdk/identity/azure-identity/azure/identity/_credentials/shared_cache.py:124-128 | Over any sequence of calls, a loaded cache stays loaded with the same value and `_initialize_cache` is never called for it again. |
| SharedCache.AccountLookupFailurePropagates | sdk/identity/azure-identity/azure/identity/_credentials/shared_cache.py:134 | An exception from `_get_account` propagates unchanged, and nothing after the account lookup is called. |
| SharedCache.CachedTokenShortCircuits | sdk/identity/azure-identity/azure/identity/_credentials/shared_cache.py:136-138 | A cached access token is returned as it is. Neither `_get_refresh_tokens` nor `obtain_token_by_refresh_token` is called. |
| SharedCache.ExchangeTrace | sdk/identity/azure-identity/azure/identity/_credentials/shared_cache.py:120-145 | With no cached token and some refresh token, the calls are the setup, the three lookups and one exchange of the first refresh token. The exchange's answer is the result. |
| SharedCache.LookupsExchange | sdk/identity/azure-identity/azure/identity/_credentials/shared_cache.py:134-145 | The same path, seen from the lookups alone: account, cached token, refresh tokens, then the exchange of the first refresh token with the request's arguments. |
| SharedCache.RefreshTokenExchanged | sdk/identity/azure-identity/azure/identity/_credentials/shared_cache.py:140-145 | With no cached token and some refresh token, exactly one exchange is made, and it is the last call. It uses the first refresh token and the request's own scopes, `claims`, `tenant_id` and keyword arguments. Its token is returned unchanged, or its exception propagates. |
| SharedCache.AtMostOneExchange | sdk/identity/azure-identity/azure/identity/_credentials/shared_cache.py:140-145 | Whatever the collaborators answer, one call makes at most one `obtain_token_by_refresh_token` call. |
| SharedCache.NoRefreshTokenRaised | sdk/identity/azure-identity/azure/identity/_credentials/shared_cache.py:147 | With no cached token and no refresh token, `CredentialUnavailableError` is raised with `NO_TOKEN` formatted with the account's `username` (absent if the account has none), and no exchange is made. |
| SharedCache.RunAll | sdk/identity/azure-identity/azure/identity/_credentials/shared_cache.py:109-147 | Calls `get_token` repeatedly on one credential, one result per request. |
| SharedCache.SharedTokenCacheImpl.constructor | sdk/identity/azure-identity/azure/identity/_credentials/shared_cache.py:41 | A new `_SharedTokenCacheCredential(username=username, **kwargs)` keeps `username` and the `tenant_id` keyword, with no client and no cache loaded. |
| SharedCache.SharedTokenCacheImpl.InitClient | sdk/identity/azure-identity/azure/identity/_credentials/shared_cache.py:120-121 | `_initialize_client()` marks the client initialised and changes nothing else. |
| SharedCache.SharedTokenCacheImpl.InitCache | sdk/identity/azure-identity/azure/identity/_credentials/shared_cache.py:127-128 | `_initialize_cache(is_cae)` returns the loaded cache, stores it in the field `is_cae` selects, and leaves the other field alone. |
| SharedCache.SharedTokenCacheImpl.FindAccount | sdk/identity/azure-identity/azure/identity/_credentials/shared_cache.py:134 | `_get_account(self._username, self._tenant_id, is_cae)` gives the collaborator's answer for the selected cache. |
| SharedCache.SharedTokenCacheImpl.FindCachedAccessToken | sdk/identity/azure-identity/azure/identity/_credentials/shared_cache.py:136 | `_get_cached_access_token(scopes, account, is_cae)` gives the collaborator's answer for the selected cache. |
| SharedCache.SharedTokenCacheImpl.FindRefreshTokens | sdk/identity/azure-identity/azure/identity/_credentials/shared_cache.py:141 | `_get_refresh_tokens(account, is_cae)` gives the collaborator's refresh tokens for the selected cache, in order. |
| SharedCache.SharedTokenCacheImpl.ObtainToken | sdk/identity/azure-identity/azure/identity/_credentials/shared_cache.py:142-144 | `obtain_token_by_refresh_token(scopes, refresh_token, claims=, tenant_id=, **kwargs)` gives the client's answer for exactly those arguments. |
| SharedCache.SharedTokenCacheImpl.GetToken | sdk/identity/azure-identity/azure/identity/_credentials/shared_cache.py:109-147 | The imperative `get_token` returns or raises what `GetTokenOutcome` gives. It leaves `_client_initialized`, `_cache` and `_cae_cache` as that outcome says, and adds exactly its calls to the log. |
| SharedCache.SharedTokenCacheImpl.LookUp | sdk/identity/azure-identity/azure/identity/_credentials/shared_cache.py:134-147 | The account lookup, the cached-token lookup and the refresh-token `for` loop, which returns on its first iteration, give what `Lookups` gives and change no field. |
| SharedCache.SharedTokenCacheCredential.constructor | sdk/identity/azure-identity/azure/identity/_credentials/shared_cache.py:37-41 | The wrapper holds a silent-authentication credential built from the keyword arguments exactly when `authentication_record` is among them. Otherwise it holds a fresh `_SharedTokenCacheCredential` with the given username and tenant, no client and no cache. |
| SharedCache.SharedTokenCacheCredential.GetToken | sdk/identity/azure-identity/azure/identity/_credentials/shared_cache.py:85 | `get_token` forwards scopes, `claims`, `tenant_id`, `enable_cae` and the other keyword arguments unchanged to the chosen credential, and returns or raises what that credential does. |

The helper functions `Step`, `InOrder`, `ReadsOnly`, `CountStep` and the
lemmas `CountStepAppend`, `CountStepAbsent`, `InOrderLater`, `InOrderAppend`,
`ReadsOnlyAppend` and `InOrderAtMostOnce` (module `CallLog`) are facts about
call logs that the rows above are stated and proved with. The lemma
`SharedCache.OutcomeWithCache` unfolds `GetTokenOutcome` once a cache is in
use; it serves only the proof of `SharedTokenCacheImpl.GetToken`.

## Left out

- The internals of the base-class helpers, which are not part of this model:
  account matching by username and tenant, the errors for no account or
  several accounts, access-token expiry and scope matching, and the cache
  file format. Each helper is an arbitrary total function.
- Exceptions raised by `_initialize_client`, `_initialize_cache`,
  `_get_cached_access_token` and `_get_refresh_tokens`. The model gives these
  helpers no failure. Exceptions from `_get_account` and the exchange are
  modelled and propagate. The reason: `get_token` catches no exception
  (shared_cache.py:109-147), so a failure of any of the four would only pass
  through as `_get_account`'s does (`AccountLookupFailurePropagates`). The
  model keeps failure where it is part of the credential's documented
  behaviour (no or several matching accounts, a rejected refresh token); the
  base-class code that would say when the other four fail is not part of
  this model.
- `if not token_cache` and `if token` test Python truthiness. The model reads
  them as "the value is not `None`".
- `SilentAuthenticationCredential`: its `get_token` is a caller-supplied
  function of its keyword arguments and the request. Its internal state is
  not modelled.
- The `NO_TOKEN` template's text: it is imported from
  `.._internal.shared_token_cache` (shared_cache.py:13), which is not part
  of this model. The model keeps the username it is formatted with
  (`Message.NoToken`).
- `AadClient`, the HTTP refresh-token exchange, and `_get_auth_client`:
  network code, reduced to the collaborator exchange.
- The `log_get_token` decorator: logging only.
- `__enter__`, `__exit__` and `close`: transport session lifetime.
- `supported()`: a platform check in code outside this model.
- Keyword-argument values are modelled as strings by name.
- Concurrency: the source has no locking, and the model has none.

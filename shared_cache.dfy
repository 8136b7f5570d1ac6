/**
 * The shared-token-cache credential: `get_token` of the credential that reads
 * tokens from the cache shared by Microsoft developer tools, and the public
 * wrapper that picks that credential or the silent-authentication one.
 *
 * `GetTokenOutcome` states what one `get_token` call does: what it returns or
 * raises, the fields it leaves behind and the collaborator calls it makes.
 * The class `SharedTokenCacheImpl` runs the same steps imperatively over its
 * fields and is proved to agree with it; the lemmas state the properties.
 */
module SharedCache {
  import opened Wrappers
  import opened TokenCacheBase
  import opened CallLog

  /** The message of the `ValueError` raised when no scope is given. */
  const ScopeRequired := "'get_token' requires at least one scope"

  /** The message of the `CredentialUnavailableError` raised when no cache can be loaded. */
  const CacheUnavailable := "Shared token cache unavailable"

  /**
   * The message of a `CredentialUnavailableError`. `NoToken(u)` stands for the
   * `NO_TOKEN` template of `.._internal.shared_token_cache` formatted with
   * the username `u`; that module is not part of this model.
   */
  datatype Message = Literal(text: string) | NoToken(username: Option<string>)

  /**
   * What `get_token` can raise: its own `ValueError` and
   * `CredentialUnavailableError`, or an exception of a collaborator, which is
   * re-raised as it is.
   */
  datatype Error =
    | ValueError(message: string)
    | CredentialUnavailable(reason: Message)
    | Raised(exception: Exception)

  /** The arguments of one `get_token(*scopes, claims=, tenant_id=, enable_cae=, **kwargs)` call. */
  datatype Request = Request(scopes: seq<string>, claims: Option<string>, tenantId: Option<string>,
                             enableCae: bool, kwargs: map<string, string>)

  /** The account selectors fixed at construction: `_username` and `_tenant_id`. */
  datatype Config = Config(username: Option<string>, tenantId: Option<string>)

  /** The fields `get_token` reads and writes: `_client_initialized`, `_cache` and `_cae_cache`. */
  datatype State = State(clientInitialized: bool, cache: Option<TokenCache>, caeCache: Option<TokenCache>)
  {
    /** The cache field that `is_cae` selects. */
    function Selected(isCae: bool): Option<TokenCache>
    {
      if isCae then caeCache else cache
    }

    /** This state with the cache field that `isCae` selects set to `c`. */
    function WithSelected(isCae: bool, c: Option<TokenCache>): State
    {
      if isCae then this.(caeCache := c) else this.(cache := c)
    }
  }

  /** The state of a credential that has just been constructed. */
  const Initial := State(false, None, None)

  /** What one `get_token` call returns or raises, the fields it leaves and the calls it makes. */
  datatype Outcome = Outcome(result: Result<AccessToken, Error>, state: State, calls: seq<Call>)

  /** The calls made by the lazy client initialisation. */
  function ClientSetup(s: State): seq<Call>
  {
    if s.clientInitialized then [] else [InitializeClient]
  }

  /** The cache `get_token` works with: the selected field, or else what loading it gives. */
  function CacheInUse(s: State, isCae: bool, env: Collaborators): Option<TokenCache>
  {
    if s.Selected(isCae).Some? then s.Selected(isCae) else env.initializeCache(isCae)
  }

  /** The token exchange's answer as `get_token` passes it on: the token, or the exception re-raised. */
  function ExchangeResult(r: Result<AccessToken, Exception>): Result<AccessToken, Error>
  {
    match r
    case Success(token) => Success(token)
    case Failure(e) => Failure(Raised(e))
  }

  /** What the lookups in a loaded cache give: the result and the calls they make. */
  datatype Answer = Answer(result: Result<AccessToken, Error>, calls: seq<Call>)

  /**
   * The steps of `get_token` once a cache is in use: find the account, then a
   * cached access token, and else exchange the first refresh token.
   */
  function Lookups(config: Config, cache: TokenCache, isCae: bool, req: Request, env: Collaborators): Answer
  {
    var accountCall := GetAccount(config.username, config.tenantId, isCae);
    match env.getAccount(cache, config.username, config.tenantId)
    case Failure(e) =>
      Answer(Failure(Raised(e)), [accountCall])
    case Success(account) =>
      var tokenCall := GetCachedAccessToken(req.scopes, account, isCae);
      match env.getCachedAccessToken(cache, req.scopes, account)
      case Some(token) =>
        Answer(Success(token), [accountCall, tokenCall])
      case None =>
        var refreshTokens := env.getRefreshTokens(cache, account);
        var refreshCall := GetRefreshTokens(account, isCae);
        if |refreshTokens| == 0 then
          Answer(Failure(CredentialUnavailable(NoToken(AccountUsername(account)))),
                 [accountCall, tokenCall, refreshCall])
        else
          var exchangeCall := ObtainTokenByRefreshToken(req.scopes, refreshTokens[0], req.claims,
                                                        req.tenantId, req.kwargs);
          Answer(ExchangeResult(env.obtainTokenByRefreshToken(req.scopes, refreshTokens[0], req.claims,
                                                              req.tenantId, req.kwargs)),
                 [accountCall, tokenCall, refreshCall, exchangeCall])
  }

  /** The calls made before the lookups: the lazy client initialisation and the lazy cache load. */
  function Setup(s: State, isCae: bool): seq<Call>
  {
    ClientSetup(s) + (if s.Selected(isCae).Some? then [] else [InitializeCache(isCae)])
  }

  /**
   * One call of `_SharedTokenCacheCredential.get_token` from state `s`: its
   * result, the fields it leaves and the calls it makes.
   */
  function GetTokenOutcome(config: Config, s: State, req: Request, env: Collaborators): Outcome
  {
    if |req.scopes| == 0 then
      Outcome(Failure(ValueError(ScopeRequired)), s, [])
    else
      var isCae := req.enableCae;
      var tokenCache := CacheInUse(s, isCae, env);
      var s' := s.(clientInitialized := true).WithSelected(isCae, tokenCache);
      var setup := Setup(s, isCae);
      if tokenCache.None? then
        Outcome(Failure(CredentialUnavailable(Literal(CacheUnavailable))), s', setup)
      else
        var a := Lookups(config, tokenCache.value, isCae, req, env);
        Outcome(a.result, s', setup + a.calls)
  }

  /**
   * The lookups' calls come in step order, all after the cache load, start
   * with the account lookup, and read only the cache `isCae` selects.
   */
  lemma LookupsInOrder(config: Config, cache: TokenCache, isCae: bool, req: Request, env: Collaborators)
    ensures var a := Lookups(config, cache, isCae, req, env);
            && InOrder(a.calls)
            && ReadsOnly(a.calls, isCae)
            && a.calls != [] && a.calls[0] == GetAccount(config.username, config.tenantId, isCae)
            && (forall c :: c in a.calls ==> Step(c) >= 2)
  {
  }

  /**
   * The setup's calls come in step order and read only the cache `isCae`
   * selects; the client is initialised exactly when it was not, and the
   * cache loaded exactly when it was absent.
   */
  lemma SetupInOrder(s: State, isCae: bool)
    ensures InOrder(Setup(s, isCae))
    ensures ReadsOnly(Setup(s, isCae), isCae)
    ensures InitializeClient in Setup(s, isCae) <==> !s.clientInitialized
    ensures InitializeCache(isCae) in Setup(s, isCae) <==> s.Selected(isCae).None?
  {
  }

  /**
   * Whatever the collaborators answer, one `get_token` call makes its calls
   * in the order of the steps, so each step at most once.
   */
  lemma CallsInOrder(config: Config, s: State, req: Request, env: Collaborators)
    ensures InOrder(GetTokenOutcome(config, s, req, env).calls)
  {
    var isCae := req.enableCae;
    var tokenCache := CacheInUse(s, isCae, env);
    if |req.scopes| > 0 {
      SetupInOrder(s, isCae);
      if tokenCache.Some? {
        LookupsInOrder(config, tokenCache.value, isCae, req, env);
        InOrderAppend(Setup(s, isCae), Lookups(config, tokenCache.value, isCae, req, env).calls);
      }
    }
  }

  /** Whatever the collaborators answer, every cache read is of the cache that `enable_cae` selects. */
  lemma ReadsOnlySelectedCache(config: Config, s: State, req: Request, env: Collaborators)
    ensures ReadsOnly(GetTokenOutcome(config, s, req, env).calls, req.enableCae)
  {
    var isCae := req.enableCae;
    var tokenCache := CacheInUse(s, isCae, env);
    if |req.scopes| > 0 {
      SetupInOrder(s, isCae);
      if tokenCache.Some? {
        LookupsInOrder(config, tokenCache.value, isCae, req, env);
        ReadsOnlyAppend(Setup(s, isCae), Lookups(config, tokenCache.value, isCae, req, env).calls, isCae);
      }
    }
  }

  /**
   * Whatever the collaborators answer, the cache field `enable_cae` does not
   * select is left as it was; the client counts as initialised afterwards
   * exactly when it was before or some scope was given; and a cache that was
   * already loaded is kept and not loaded again.
   */
  lemma FieldsAfterCall(config: Config, s: State, req: Request, env: Collaborators)
    ensures var o := GetTokenOutcome(config, s, req, env);
            && o.state.Selected(!req.enableCae) == s.Selected(!req.enableCae)
            && o.state.clientInitialized == (s.clientInitialized || |req.scopes| > 0)
            && (forall isCae :: s.Selected(isCae).Some? ==>
                  o.state.Selected(isCae) == s.Selected(isCae) && InitializeCache(isCae) !in o.calls)
  {
    var isCae := req.enableCae;
    var tokenCache := CacheInUse(s, isCae, env);
    if |req.scopes| > 0 {
      SetupInOrder(s, isCae);
      if tokenCache.Some? {
        LookupsInOrder(config, tokenCache.value, isCae, req, env);
      }
    }
  }

  /** `get_token` with some scope and a cache in use: the setup, then the lookups in that cache. */
  lemma OutcomeWithCache(config: Config, s: State, req: Request, env: Collaborators, cache: TokenCache)
    requires |req.scopes| > 0
    requires CacheInUse(s, req.enableCae, env) == Some(cache)
    ensures var a := Lookups(config, cache, req.enableCae, req, env);
            GetTokenOutcome(config, s, req, env) ==
              Outcome(a.result, s.(clientInitialized := true).WithSelected(req.enableCae, Some(cache)),
                      Setup(s, req.enableCae) + a.calls)
  {
  }

  // Properties of one get_token call

  /**
   * An empty scope list raises `ValueError` before anything else: no
   * collaborator is called and no field changes. `get_token`'s own
   * `ValueError` is raised on no other path; a collaborator's is re-raised
   * as `Raised`.
   */
  lemma EmptyScopesRejected(config: Config, s: State, req: Request, env: Collaborators)
    ensures var o := GetTokenOutcome(config, s, req, env);
            (o.result.Failure? && o.result.error.ValueError?) <==> |req.scopes| == 0
    ensures |req.scopes| == 0 ==>
              GetTokenOutcome(config, s, req, env) == Outcome(Failure(ValueError(ScopeRequired)), s, [])
  {
  }

  /** `_initialize_client` is called exactly when the client was not initialised and some scope was given. */
  lemma ClientInitializedLazily(config: Config, s: State, req: Request, env: Collaborators)
    ensures var o := GetTokenOutcome(config, s, req, env);
            InitializeClient in o.calls <==> !s.clientInitialized && |req.scopes| > 0
  {
  }

  /**
   * The cache not selected by `enable_cae` is never consulted: two states
   * that differ only in that cache give the same result and the same calls,
   * and leave the selected cache and the client flag alike.
   */
  lemma OtherCacheNotConsulted(config: Config, s: State, t: State, req: Request, env: Collaborators)
    requires s.clientInitialized == t.clientInitialized
    requires s.Selected(req.enableCae) == t.Selected(req.enableCae)
    ensures var os, ot := GetTokenOutcome(config, s, req, env), GetTokenOutcome(config, t, req, env);
            && os.result == ot.result
            && os.calls == ot.calls
            && os.state.clientInitialized == ot.state.clientInitialized
            && os.state.Selected(req.enableCae) == ot.state.Selected(req.enableCae)
  {
  }

  /**
   * `CredentialUnavailableError("Shared token cache unavailable")` is raised
   * exactly when the selected cache is absent and loading it gives none; the
   * calls then end with that load: no account or token is looked up and no
   * exchange is made.
   */
  lemma CacheUnavailableRaised(config: Config, s: State, req: Request, env: Collaborators)
    ensures var o := GetTokenOutcome(config, s, req, env);
            o.result == Failure(CredentialUnavailable(Literal(CacheUnavailable))) <==>
              |req.scopes| > 0 && s.Selected(req.enableCae).None? && env.initializeCache(req.enableCae).None?
    ensures var o := GetTokenOutcome(config, s, req, env);
            o.result == Failure(CredentialUnavailable(Literal(CacheUnavailable))) ==>
              o.calls == ClientSetup(s) + [InitializeCache(req.enableCae)]
  {
  }

  /** An exception raised by the account lookup propagates, and nothing after the lookup is called. */
  lemma AccountLookupFailurePropagates(config: Config, s: State, req: Request, env: Collaborators,
                                       cache: TokenCache, e: Exception)
    requires |req.scopes| > 0
    requires CacheInUse(s, req.enableCae, env) == Some(cache)
    requires env.getAccount(cache, config.username, config.tenantId) == Failure(e)
    ensures var o := GetTokenOutcome(config, s, req, env);
            && o.result == Failure(Raised(e))
            && o.calls == Setup(s, req.enableCae) + [GetAccount(config.username, config.tenantId, req.enableCae)]
  {
  }

  /**
   * A cached access token is returned as it is, and neither the refresh
   * tokens are looked up nor the exchange is called.
   */
  lemma CachedTokenShortCircuits(config: Config, s: State, req: Request, env: Collaborators,
                                 cache: TokenCache, account: Account, token: AccessToken)
    requires |req.scopes| > 0
    requires CacheInUse(s, req.enableCae, env) == Some(cache)
    requires env.getAccount(cache, config.username, config.tenantId) == Success(account)
    requires env.getCachedAccessToken(cache, req.scopes, account) == Some(token)
    ensures var o := GetTokenOutcome(config, s, req, env);
            && o.result == Success(token)
            && (forall c :: c in o.calls ==> !c.GetRefreshTokens? && !c.ObtainTokenByRefreshToken?)
  {
  }

  /**
   * The calls and the result of `get_token` when there is no cached access
   * token and some refresh token: the setup, the three lookups, then the
   * exchange of the first refresh token, whose answer is passed on.
   */
  lemma ExchangeTrace(config: Config, s: State, req: Request, env: Collaborators,
                      cache: TokenCache, account: Account)
    requires |req.scopes| > 0
    requires CacheInUse(s, req.enableCae, env) == Some(cache)
    requires env.getAccount(cache, config.username, config.tenantId) == Success(account)
    requires env.getCachedAccessToken(cache, req.scopes, account).None?
    requires |env.getRefreshTokens(cache, account)| > 0
    ensures var o := GetTokenOutcome(config, s, req, env);
            var isCae := req.enableCae;
            var exchange := ObtainTokenByRefreshToken(req.scopes, env.getRefreshTokens(cache, account)[0],
                                                      req.claims, req.tenantId, req.kwargs);
            && o.calls == (Setup(s, isCae) + [GetAccount(config.username, config.tenantId, isCae),
                                             GetCachedAccessToken(req.scopes, account, isCae),
                                             GetRefreshTokens(account, isCae)]) + [exchange]
            && o.result == ExchangeResult(env.obtainTokenByRefreshToken(exchange.scopes, exchange.refreshToken,
                                                                        exchange.claims, exchange.tenantId,
                                                                        exchange.kwargs))
  {
    LookupsExchange(config, cache, req.enableCae, req, env, account);
  }

  /**
   * The trace of the lookups when there is no cached access token and some
   * refresh token: the three lookups, then the exchange of the first
   * refresh token.
   */
  lemma LookupsExchange(config: Config, cache: TokenCache, isCae: bool, req: Request, env: Collaborators,
                        account: Account)
    requires env.getAccount(cache, config.username, config.tenantId) == Success(account)
    requires env.getCachedAccessToken(cache, req.scopes, account).None?
    requires |env.getRefreshTokens(cache, account)| > 0
    ensures var a := Lookups(config, cache, isCae, req, env);
            var exchange := ObtainTokenByRefreshToken(req.scopes, env.getRefreshTokens(cache, account)[0],
                                                      req.claims, req.tenantId, req.kwargs);
            && a.calls == [GetAccount(config.username, config.tenantId, isCae),
                           GetCachedAccessToken(req.scopes, account, isCae),
                           GetRefreshTokens(account, isCae)] + [exchange]
            && a.result == ExchangeResult(env.obtainTokenByRefreshToken(exchange.scopes, exchange.refreshToken,
                                                                        exchange.claims, exchange.tenantId,
                                                                        exchange.kwargs))
  {
  }

  /**
   * With no cached access token and some refresh token, exactly one exchange
   * is made, with the first refresh token and the request's own scopes,
   * claims, tenant and keyword arguments, and it is the last call; its token
   * is returned unchanged, or its exception propagates.
   */
  lemma RefreshTokenExchanged(config: Config, s: State, req: Request, env: Collaborators,
                              cache: TokenCache, account: Account)
    requires |req.scopes| > 0
    requires CacheInUse(s, req.enableCae, env) == Some(cache)
    requires env.getAccount(cache, config.username, config.tenantId) == Success(account)
    requires env.getCachedAccessToken(cache, req.scopes, account).None?
    requires |env.getRefreshTokens(cache, account)| > 0
    ensures var o := GetTokenOutcome(config, s, req, env);
            var exchange := ObtainTokenByRefreshToken(req.scopes, env.getRefreshTokens(cache, account)[0],
                                                      req.claims, req.tenantId, req.kwargs);
            && CountStep(o.calls, ExchangeStep) == 1
            && o.calls[|o.calls| - 1] == exchange
            && match env.obtainTokenByRefreshToken(exchange.scopes, exchange.refreshToken, exchange.claims,
                                                   exchange.tenantId, exchange.kwargs)
               case Success(token) => o.result == Success(token)
               case Failure(e) => o.result == Failure(Raised(e))
  {
    var isCae := req.enableCae;
    var exchange := ObtainTokenByRefreshToken(req.scopes, env.getRefreshTokens(cache, account)[0],
                                              req.claims, req.tenantId, req.kwargs);
    var before := Setup(s, isCae) + [GetAccount(config.username, config.tenantId, isCae),
                                     GetCachedAccessToken(req.scopes, account, isCae),
                                     GetRefreshTokens(account, isCae)];
    var o := GetTokenOutcome(config, s, req, env);
    ExchangeTrace(config, s, req, env, cache, account);
    CountStepAppend(before, [exchange], ExchangeStep);
    assert forall i :: 0 <= i < |before| ==> Step(before[i]) < ExchangeStep;
    CountStepAbsent(before, ExchangeStep);
  }

  /**
   * With no cached access token and no refresh token, `CredentialUnavailableError`
   * is raised with `NO_TOKEN` formatted with the account's username, and no
   * exchange is made.
   */
  lemma NoRefreshTokenRaised(config: Config, s: State, req: Request, env: Collaborators,
                             cache: TokenCache, account: Account)
    requires |req.scopes| > 0
    requires CacheInUse(s, req.enableCae, env) == Some(cache)
    requires env.getAccount(cache, config.username, config.tenantId) == Success(account)
    requires env.getCachedAccessToken(cache, req.scopes, account).None?
    requires env.getRefreshTokens(cache, account) == []
    ensures var o := GetTokenOutcome(config, s, req, env);
            && o.result == Failure(CredentialUnavailable(NoToken(AccountUsername(account))))
            && (forall c :: c in o.calls ==> !c.ObtainTokenByRefreshToken?)
  {
  }

  /** Whatever the collaborators answer, one `get_token` call makes at most one exchange. */
  lemma AtMostOneExchange(config: Config, s: State, req: Request, env: Collaborators)
    ensures CountStep(GetTokenOutcome(config, s, req, env).calls, ExchangeStep) <= 1
  {
    CallsInOrder(config, s, req, env);
    InOrderAtMostOnce(GetTokenOutcome(config, s, req, env).calls, ExchangeStep);
  }

  // Repeated get_token calls on one credential

  /** What some `get_token` calls in a row give: their results, the fields left and all calls made. */
  datatype Run = Run(results: seq<Result<AccessToken, Error>>, state: State, calls: seq<Call>)

  /**
   * `get_token` called once for each request in turn, each with the
   * collaborators' answers at that time, starting from state `s`.
   */
  function RunAll(config: Config, s: State, requests: seq<(Request, Collaborators)>): (r: Run)
    ensures |r.results| == |requests|
    decreases |requests|
  {
    if requests == [] then Run([], s, [])
    else
      var o := GetTokenOutcome(config, s, requests[0].0, requests[0].1);
      var rest := RunAll(config, o.state, requests[1..]);
      Run([o.result] + rest.results, rest.state, o.calls + rest.calls)
  }

  /**
   * Over any number of calls, `_initialize_client` runs at most once, and
   * never when the client was already initialised.
   */
  lemma {:induction false} ClientInitializedOnce(config: Config, s: State, requests: seq<(Request, Collaborators)>)
    ensures CountStep(RunAll(config, s, requests).calls, ClientInitStep) <= (if s.clientInitialized then 0 else 1)
    decreases |requests|
  {
    if requests != [] {
      var req, env := requests[0].0, requests[0].1;
      var o := GetTokenOutcome(config, s, req, env);
      var r := RunAll(config, o.state, requests[1..]);
      assert RunAll(config, s, requests).calls == o.calls + r.calls;
      CallsInOrder(config, s, req, env);
      FieldsAfterCall(config, s, req, env);
      ClientInitializedOnce(config, o.state, requests[1..]);
      CountStepAppend(o.calls, r.calls, ClientInitStep);
      InOrderAtMostOnce(o.calls, ClientInitStep);
      if s.clientInitialized || |req.scopes| == 0 {
        ClientInitializedLazily(config, s, req, env);
        assert forall i :: 0 <= i < |o.calls| ==> o.calls[i] in o.calls;
        CountStepAbsent(o.calls, ClientInitStep);
      }
    }
  }

  /** After any number of calls the client is initialised exactly when it was before or some call gave a scope. */
  lemma {:induction false} ClientInitializedAfterRun(config: Config, s: State, requests: seq<(Request, Collaborators)>)
    ensures RunAll(config, s, requests).state.clientInitialized <==>
              s.clientInitialized || exists i :: 0 <= i < |requests| && |requests[i].0.scopes| > 0
    decreases |requests|
  {
    if requests != [] {
      var req, env := requests[0].0, requests[0].1;
      var o := GetTokenOutcome(config, s, req, env);
      var rest := requests[1..];
      FieldsAfterCall(config, s, req, env);
      ClientInitializedAfterRun(config, o.state, rest);
      if exists i :: 0 <= i < |rest| && |rest[i].0.scopes| > 0 {
        var i :| 0 <= i < |rest| && |rest[i].0.scopes| > 0;
        assert requests[i + 1] == rest[i];
      }
      if exists i :: 0 <= i < |requests| && |requests[i].0.scopes| > 0 {
        var i :| 0 <= i < |requests| && |requests[i].0.scopes| > 0;
        if i > 0 {
          assert rest[i - 1] == requests[i];
        }
      }
    }
  }

  /**
   * A cache, once loaded, stays loaded and is never loaded again, over any
   * number of calls.
   */
  lemma {:induction false} LoadedCacheKept(config: Config, s: State, requests: seq<(Request, Collaborators)>,
                                           isCae: bool)
    requires s.Selected(isCae).Some?
    ensures RunAll(config, s, requests).state.Selected(isCae) == s.Selected(isCae)
    ensures InitializeCache(isCae) !in RunAll(config, s, requests).calls
    decreases |requests|
  {
    if requests != [] {
      var o := GetTokenOutcome(config, s, requests[0].0, requests[0].1);
      FieldsAfterCall(config, s, requests[0].0, requests[0].1);
      LoadedCacheKept(config, o.state, requests[1..], isCae);
    }
  }

  // The credential as an object

  /**
   * `_SharedTokenCacheCredential`: the account selectors, the three fields
   * `get_token` works through, and a log of the collaborator calls made on
   * this object so far. The helper methods stand for the base-class helpers:
   * each gives the collaborators' answer, makes the change to the fields the
   * base class makes, and records the call.
   */
  class SharedTokenCacheImpl {
    const username: Option<string>
    const tenantId: Option<string>
    var clientInitialized: bool
    var cache: Option<TokenCache>
    var caeCache: Option<TokenCache>
    ghost var calls: seq<Call>

    /** The account selectors `_username` and `_tenant_id`. */
    function Selectors(): Config
    {
      Config(username, tenantId)
    }

    /** The fields `get_token` works through, as a value. */
    function Fields(): State
      reads this
    {
      State(clientInitialized, cache, caeCache)
    }

    /** A new credential: no client, no cache loaded, the tenant taken from the `tenant_id` keyword. */
    constructor (username: Option<string>, kwargs: map<string, string>)
      ensures this.username == username && tenantId == Get(kwargs, "tenant_id")
      ensures Fields() == Initial && calls == []
    {
      this.username := username;
      tenantId := Get(kwargs, "tenant_id");
      clientInitialized := false;
      cache := None;
      caeCache := None;
      calls := [];
    }

    /** `_initialize_client()`: creates the client and marks it initialised. */
    method InitClient()
      modifies this`clientInitialized, this`calls
      ensures Fields() == old(Fields()).(clientInitialized := true)
      ensures calls == old(calls) + [InitializeClient]
    {
      clientInitialized := true;
      calls := calls + [InitializeClient];
    }

    /** `_initialize_cache(is_cae=isCae)`: loads the selected cache into its field and returns it. */
    method InitCache(isCae: bool, env: Collaborators) returns (loaded: Option<TokenCache>)
      modifies this`cache, this`caeCache, this`calls
      ensures loaded == env.initializeCache(isCae)
      ensures Fields() == old(Fields()).WithSelected(isCae, loaded)
      ensures calls == old(calls) + [InitializeCache(isCae)]
    {
      loaded := env.initializeCache(isCae);
      if isCae {
        caeCache := loaded;
      } else {
        cache := loaded;
      }
      calls := calls + [InitializeCache(isCae)];
    }

    /** `_get_account(self._username, self._tenant_id, is_cae=isCae)`, reading the cache `tokenCache`. */
    method FindAccount(tokenCache: TokenCache, isCae: bool, env: Collaborators)
      returns (found: Result<Account, Exception>)
      modifies this`calls
      ensures found == env.getAccount(tokenCache, username, tenantId)
      ensures calls == old(calls) + [GetAccount(username, tenantId, isCae)]
    {
      found := env.getAccount(tokenCache, username, tenantId);
      calls := calls + [GetAccount(username, tenantId, isCae)];
    }

    /** `_get_cached_access_token(scopes, account, is_cae=isCae)`, reading the cache `tokenCache`. */
    method FindCachedAccessToken(tokenCache: TokenCache, scopes: seq<string>, account: Account, isCae: bool,
                                 env: Collaborators) returns (token: Option<AccessToken>)
      modifies this`calls
      ensures token == env.getCachedAccessToken(tokenCache, scopes, account)
      ensures calls == old(calls) + [GetCachedAccessToken(scopes, account, isCae)]
    {
      token := env.getCachedAccessToken(tokenCache, scopes, account);
      calls := calls + [GetCachedAccessToken(scopes, account, isCae)];
    }

    /** `_get_refresh_tokens(account, is_cae=isCae)`, reading the cache `tokenCache`. */
    method FindRefreshTokens(tokenCache: TokenCache, account: Account, isCae: bool, env: Collaborators)
      returns (refreshTokens: seq<string>)
      modifies this`calls
      ensures refreshTokens == env.getRefreshTokens(tokenCache, account)
      ensures calls == old(calls) + [GetRefreshTokens(account, isCae)]
    {
      refreshTokens := env.getRefreshTokens(tokenCache, account);
      calls := calls + [GetRefreshTokens(account, isCae)];
    }

    /** `self._client.obtain_token_by_refresh_token(scopes, refresh_token, claims=, tenant_id=, **kwargs)`. */
    method ObtainToken(scopes: seq<string>, refreshToken: string, claims: Option<string>, requestTenant: Option<string>,
                       kwargs: map<string, string>, env: Collaborators) returns (answer: Result<AccessToken, Exception>)
      modifies this`calls
      ensures answer == env.obtainTokenByRefreshToken(scopes, refreshToken, claims, requestTenant, kwargs)
      ensures calls == old(calls) + [ObtainTokenByRefreshToken(scopes, refreshToken, claims, requestTenant, kwargs)]
    {
      answer := env.obtainTokenByRefreshToken(scopes, refreshToken, claims, requestTenant, kwargs);
      calls := calls + [ObtainTokenByRefreshToken(scopes, refreshToken, claims, requestTenant, kwargs)];
    }

    /**
     * `get_token(*scopes, claims=, tenant_id=, enable_cae=, **kwargs)`: returns
     * or raises what `GetTokenOutcome` says, leaves the fields it says, and
     * adds to the log exactly the calls it says.
     */
    method GetToken(req: Request, env: Collaborators) returns (r: Result<AccessToken, Error>)
      modifies this`clientInitialized, this`cache, this`caeCache, this`calls
      ensures var o := GetTokenOutcome(Selectors(), old(Fields()), req, env);
              r == o.result && Fields() == o.state && calls == old(calls) + o.calls
    {
      if |req.scopes| == 0 {
        return Failure(ValueError(ScopeRequired));
      }
      ghost var s := Fields();
      if !clientInitialized {
        InitClient();
      }
      var isCae := req.enableCae;
      var tokenCache := if isCae then caeCache else cache;
      if tokenCache.None? {
        tokenCache := InitCache(isCae, env);
        if tokenCache.None? {
          return Failure(CredentialUnavailable(Literal(CacheUnavailable)));
        }
      }
      assert Fields() == s.(clientInitialized := true).WithSelected(isCae, tokenCache);
      assert calls == old(calls) + Setup(s, isCae);
      OutcomeWithCache(Selectors(), s, req, env, tokenCache.value);
      r := LookUp(tokenCache.value, isCae, req, env);
    }

    /**
     * The rest of `get_token` once `tokenCache` is in use: the account lookup,
     * the cached-token lookup, and the loop over the refresh tokens that
     * returns from its first iteration. Returns or raises what `Lookups` says
     * and adds its calls to the log; no field changes.
     */
    method LookUp(tokenCache: TokenCache, isCae: bool, req: Request, env: Collaborators)
      returns (r: Result<AccessToken, Error>)
      modifies this`calls
      ensures var a := Lookups(Selectors(), tokenCache, isCae, req, env);
              r == a.result && calls == old(calls) + a.calls
    {
      var found := FindAccount(tokenCache, isCae, env);
      if found.Failure? {
        return Failure(Raised(found.error));
      }
      var account := found.value;
      var token := FindCachedAccessToken(tokenCache, req.scopes, account, isCae, env);
      if token.Some? {
        return Success(token.value);
      }
      var refreshTokens := FindRefreshTokens(tokenCache, account, isCae, env);
      ghost var before := calls;
      for i := 0 to |refreshTokens|
        invariant i == 0
        invariant calls == before
      {
        var answer := ObtainToken(req.scopes, refreshTokens[i], req.claims, req.tenantId, req.kwargs, env);
        return ExchangeResult(answer);
      }
      return Failure(CredentialUnavailable(NoToken(AccountUsername(account))));
    }
  }

  // The public wrapper

  /** The credential the wrapper forwards to, chosen once, at construction. */
  datatype Backend =
    | Silent(kwargs: map<string, string>)
    | Shared(impl: SharedTokenCacheImpl)

  /**
   * `SharedTokenCacheCredential`: holds the chosen credential in `credential`
   * (the source's `_credential`) and forwards `get_token` to it.
   */
  class SharedTokenCacheCredential {
    const credential: Backend

    /**
     * `__init__(username, **kwargs)`: a `SilentAuthenticationCredential(**kwargs)`
     * exactly when `authentication_record` is among the keyword arguments,
     * and else a new `_SharedTokenCacheCredential(username=username, **kwargs)`.
     */
    constructor (username: Option<string>, kwargs: map<string, string>)
      ensures credential.Silent? <==> "authentication_record" in kwargs
      ensures credential.Silent? ==> credential.kwargs == kwargs
      ensures credential.Shared? ==>
                && fresh(credential.impl)
                && credential.impl.username == username
                && credential.impl.tenantId == Get(kwargs, "tenant_id")
                && credential.impl.Fields() == Initial
                && credential.impl.calls == []
    {
      if "authentication_record" in kwargs {
        credential := Silent(kwargs);
      } else {
        var impl := new SharedTokenCacheImpl(username, kwargs);
        credential := Shared(impl);
      }
    }

    /**
     * `get_token`: forwards the scopes, `claims`, `tenant_id`, `enable_cae`
     * and the other keyword arguments unchanged to the chosen credential and
     * returns or raises what it does. `silentGetToken(kwargs, req)` is what
     * the silent-authentication credential built from `kwargs` answers.
     */
    method GetToken(req: Request, env: Collaborators,
                    silentGetToken: (map<string, string>, Request) -> Result<AccessToken, Error>)
      returns (r: Result<AccessToken, Error>)
      modifies if credential.Shared? then {credential.impl} else {}
      ensures credential.Silent? ==> r == silentGetToken(credential.kwargs, req)
      ensures credential.Shared? ==>
                var impl := credential.impl;
                var o := GetTokenOutcome(impl.Selectors(), old(impl.Fields()), req, env);
                r == o.result && impl.Fields() == o.state && impl.calls == old(impl.calls) + o.calls
    {
      match credential
      case Silent(kwargs) =>
        r := silentGetToken(kwargs, req);
      case Shared(impl) =>
        r := impl.GetToken(req, env);
    }
  }
}

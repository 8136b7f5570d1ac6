/**
 * The log of collaborator calls that `get_token` makes, and the facts about
 * such logs that the properties of `get_token` are stated with.
 */
module CallLog {
  import opened Wrappers
  import opened TokenCacheBase

  /** One call from `get_token` into a collaborator, with the arguments it was given. */
  datatype Call =
    | InitializeClient
    | InitializeCache(isCae: bool)
    | GetAccount(username: Option<string>, tenantId: Option<string>, isCae: bool)
    | GetCachedAccessToken(scopes: seq<string>, account: Account, isCae: bool)
    | GetRefreshTokens(account: Account, isCae: bool)
    | ObtainTokenByRefreshToken(scopes: seq<string>, refreshToken: string, claims: Option<string>,
                                tenantId: Option<string>, kwargs: map<string, string>)
  {
    /** True of the calls that read one of the two token caches. */
    predicate ReadsCache() {
      !InitializeClient? && !ObtainTokenByRefreshToken?
    }
  }

  /** The step of the client initialisation, and of the refresh-token exchange. */
  const ClientInitStep: nat := 0
  const ExchangeStep: nat := 5

  /** The position of each kind of call in the fixed order of `get_token`'s steps. */
  function Step(c: Call): nat
  {
    match c
    case InitializeClient => ClientInitStep
    case InitializeCache(_) => 1
    case GetAccount(_, _, _) => 2
    case GetCachedAccessToken(_, _, _) => 3
    case GetRefreshTokens(_, _) => 4
    case ObtainTokenByRefreshToken(_, _, _, _, _) => ExchangeStep
  }

  /** Each call is at a later step than the one before it. */
  ghost predicate InOrder(calls: seq<Call>)
  {
    forall i :: 0 < i < |calls| ==> Step(calls[i - 1]) < Step(calls[i])
  }

  /** Every call that reads a cache reads the one that `isCae` selects. */
  ghost predicate ReadsOnly(calls: seq<Call>, isCae: bool)
  {
    forall i :: 0 <= i < |calls| && calls[i].ReadsCache() ==> calls[i].isCae == isCae
  }

  /** The number of calls in `calls` made at step `k`. */
  function CountStep(calls: seq<Call>, k: nat): nat
  {
    if calls == [] then 0
    else (if Step(calls[0]) == k then 1 else 0) + CountStep(calls[1..], k)
  }

  lemma {:induction false} CountStepAppend(a: seq<Call>, b: seq<Call>, k: nat)
    ensures CountStep(a + b, k) == CountStep(a, k) + CountStep(b, k)
  {
    if a == [] {
      assert a + b == b;
    } else {
      assert (a + b)[1..] == a[1..] + b;
      CountStepAppend(a[1..], b, k);
    }
  }

  lemma {:induction false} CountStepAbsent(calls: seq<Call>, k: nat)
    requires forall i :: 0 <= i < |calls| ==> Step(calls[i]) != k
    ensures CountStep(calls, k) == 0
  {
    if calls != [] {
      assert forall i :: 0 <= i < |calls[1..]| ==> calls[1..][i] == calls[i + 1];
      CountStepAbsent(calls[1..], k);
    }
  }

  /** In a log in step order, every call is at a later step than every call before it. */
  lemma {:induction false} InOrderLater(calls: seq<Call>, i: nat, j: nat)
    requires InOrder(calls) && i < j < |calls|
    ensures Step(calls[i]) < Step(calls[j])
    decreases j - i
  {
    if i + 1 < j {
      InOrderLater(calls, i + 1, j);
    }
  }

  /** Two logs in step order, the second starting at a later step than the first ends, join into one. */
  lemma InOrderAppend(a: seq<Call>, b: seq<Call>)
    requires InOrder(a) && InOrder(b)
    requires a != [] && b != [] ==> Step(a[|a| - 1]) < Step(b[0])
    ensures InOrder(a + b)
  {
  }

  /** Two logs that each read only the cache `isCae` selects join into one that does. */
  lemma ReadsOnlyAppend(a: seq<Call>, b: seq<Call>, isCae: bool)
    requires ReadsOnly(a, isCae) && ReadsOnly(b, isCae)
    ensures ReadsOnly(a + b, isCae)
  {
  }

  /** A log in step order holds at most one call of each step. */
  lemma {:induction false} InOrderAtMostOnce(calls: seq<Call>, k: nat)
    requires InOrder(calls)
    ensures CountStep(calls, k) <= 1
  {
    if calls != [] {
      var rest := calls[1..];
      assert forall i :: 0 <= i < |rest| ==> rest[i] == calls[i + 1];
      if Step(calls[0]) == k {
        forall i | 0 <= i < |rest|
          ensures Step(rest[i]) != k
        {
          InOrderLater(calls, 0, i + 1);
        }
        CountStepAbsent(rest, k);
      } else {
        InOrderAtMostOnce(rest, k);
      }
    }
  }
}

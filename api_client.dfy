/** The HTTP client's hooks: the headers put on every request, the condition for logging a
    server error, and the delay between retries. */
module ApiClient {
  import opened Wrappers
  import opened JsString

  const JsonMediaType := "application/json"

  /** `Bearer${token}`: the word and the token with nothing between them. */
  function AuthorizationValue(token: string): (v: string)
    ensures |v| == 6 + |token| && v[..6] == "Bearer" && v[6..] == token
  {
    "Bearer" + token
  }

  /** For a token that does not start with a space, the header has no space after
      `Bearer`, which the usual `Bearer <token>` form needs. */
  lemma NoSpaceAfterBearer(token: string)
    requires token != [] && token[0] != ' '
    ensures AuthorizationValue(token)[6] != ' '
  {
  }

  /** A request's headers, which the hook sets in place. */
  class RequestHeaders {
    var entries: map<string, string>

    constructor(entries: map<string, string>)
      ensures this.entries == entries
    {
      this.entries := entries;
    }

    /** `beforeRequest`: both content headers become JSON; the authorization header is set
        only for a stored, non-empty token; every other header is kept. */
    method BeforeRequest(storedToken: Option<string>)
      modifies this
      ensures entries.Keys == old(entries).Keys + {"Accept", "Content-Type"} +
        (if storedToken.Some? && storedToken.value != "" then {"Authorization"} else {})
      ensures entries["Accept"] == JsonMediaType && entries["Content-Type"] == JsonMediaType
      ensures storedToken.Some? && storedToken.value != "" ==>
        entries["Authorization"] == AuthorizationValue(storedToken.value)
      ensures forall k :: k in old(entries) && k !in {"Accept", "Content-Type", "Authorization"} ==>
        entries[k] == old(entries)[k]
      ensures !(storedToken.Some? && storedToken.value != "") && "Authorization" in old(entries) ==>
        entries["Authorization"] == old(entries)["Authorization"]
    {
      entries := entries["Accept" := JsonMediaType];
      entries := entries["Content-Type" := JsonMediaType];
      if storedToken.Some? && |storedToken.value| > 0 {
        entries := entries["Authorization" := AuthorizationValue(storedToken.value)];
      }
    }
  }

  /** `afterResponse` logs a failed response with a 5xx status. */
  predicate LogsServerError(ok: bool, status: int) {
    !ok && status >= 500
  }

  /** A successful response is never logged, whatever its status. */
  lemma OkResponsesAreNotLogged(status: int)
    ensures !LogsServerError(true, status)
  {
  }

  /** A failed response is logged exactly when its status is a server error. */
  lemma FailedResponsesLoggedFromStatus500(status: int)
    ensures LogsServerError(false, status) <==> status >= 500
  {
  }

  function Pow2(n: nat): (p: nat)
    ensures p >= 1
  {
    if n == 0 then 1 else 2 * Pow2(n - 1)
  }

  lemma {:induction false} Pow2Monotone(m: nat, n: nat)
    requires m <= n
    ensures Pow2(m) <= Pow2(n)
  {
    if m < n {
      Pow2Monotone(m, n - 1);
    }
  }

  const MaxRetryDelay := 5000

  /** `Math.min(1000 * 2 ** (attemptCount - 1), 5000)`; the retry engine counts attempts
      from 1. */
  function RetryDelay(attempt: nat): (ms: nat)
    requires attempt >= 1
    ensures ms <= MaxRetryDelay
  {
    var d := 1000 * Pow2(attempt - 1);
    if d < MaxRetryDelay then d else MaxRetryDelay
  }

  /** The delays are 1000, 2000, 4000 and then 5000 for good. */
  lemma RetryDelayValues(attempt: nat)
    requires attempt >= 1
    ensures attempt == 1 ==> RetryDelay(attempt) == 1000
    ensures attempt == 2 ==> RetryDelay(attempt) == 2000
    ensures attempt == 3 ==> RetryDelay(attempt) == 4000
    ensures attempt >= 4 ==> RetryDelay(attempt) == MaxRetryDelay
  {
    if attempt >= 4 {
      Pow2Monotone(3, attempt - 1);
    }
  }

  /** A later attempt never waits less. */
  lemma RetryDelayMonotone(m: nat, n: nat)
    requires 1 <= m <= n
    ensures RetryDelay(m) <= RetryDelay(n)
  {
    Pow2Monotone(m - 1, n - 1);
  }
}

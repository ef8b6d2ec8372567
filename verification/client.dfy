/** The GraphQL client's request outcome (`GithubGraphQLClient.post`) and its retry
    policy: up to 6 attempts, an exponential wait clamped to [2, 30] seconds between
    them, and a retry only after a `requests` RequestException. HTTP itself is
    abstract: an attempt either fails in transport or delivers a response. */
module GraphQLClient {
  import opened Outcomes

  const MaxAttempts: nat := 6
  const MinWaitSeconds: int := 2
  const MaxWaitSeconds: int := 30

  /** A delivered HTTP response: its status, its text, whether the parsed JSON body has
      an "errors" key, and the parsed body itself. */
  datatype Response<T> = Response(status: int, text: string, hasErrors: bool, body: T)

  /** One attempt: the session raised before any response (connection error,
      timeout), or a response arrived. */
  datatype Attempt<T> = TransportError | Delivered(response: Response<T>)

  /** What one attempt of `post` raises. */
  datatype Failure =
    | ConnectionFailed       // requests.ConnectionError / Timeout, a RequestException
    | ServerError(status: int) // raise_for_status() on a 5xx status: HTTPError, a RequestException
    | Unauthorized           // status 401
    | Forbidden(text: string) // status 403, with the response text
    | GraphQLErrors          // a body carrying "errors"

  /** The retry predicate `retry_if_exception_type(RequestException)`. */
  predicate IsRequestException(f: Failure) {
    f.ConnectionFailed? || f.ServerError?
  }

  /** One attempt of `post`. `raise_for_status()` raises only for 500..599, so a
      status of 600 or more falls through to the later checks like any other. */
  function Classify<T>(a: Attempt<T>): (r: Result<T, Failure>)
    ensures r == Failure(ConnectionFailed) <==> a.TransportError?
    ensures (r.Failure? && r.error.ServerError?) <==> a.Delivered? && 500 <= a.response.status < 600
    ensures r == Failure(Unauthorized) <==> a.Delivered? && a.response.status == 401
    ensures (r.Failure? && r.error.Forbidden?) <==> a.Delivered? && a.response.status == 403
    ensures r.Failure? && r.error.Forbidden? ==> r.error.text == a.response.text
    ensures r == Failure(GraphQLErrors) <==>
      a.Delivered? && !(500 <= a.response.status < 600) && a.response.status != 401
      && a.response.status != 403 && a.response.hasErrors
    ensures r.Success? ==> a.Delivered? && r.value == a.response.body
    ensures (r.Failure? && IsRequestException(r.error)) <==>
      a.TransportError? || 500 <= a.response.status < 600
  {
    match a
    case TransportError => Failure(ConnectionFailed)
    case Delivered(resp) =>
      if 500 <= resp.status < 600 then Failure(ServerError(resp.status))
      else if resp.status == 401 then Failure(Unauthorized)
      else if resp.status == 403 then Failure(Forbidden(resp.text))
      else if resp.hasErrors then Failure(GraphQLErrors)
      else Success(resp.body)
  }

  /** What a call of `post` raises: tenacity's RetryError once the attempts are used up
      on RequestExceptions, or the first other exception, re-raised as is. */
  datatype CallError = RetryError(last: Failure) | Raised(failure: Failure)

  /** A whole call: its outcome, how many attempts it made, and the waits (in seconds)
      slept between them. */
  datatype Call<T> = Call(outcome: Result<T, CallError>, attempts: nat, waits: seq<int>)

  function Pow2(n: nat): (p: nat)
    ensures p >= 1
  {
    if n == 0 then 1 else 2 * Pow2(n - 1)
  }

  /** `wait_exponential(multiplier=1, min=2, max=30)` after attempt number `n` (from 1):
      2^(n-1) seconds, clamped to [2, 30]. */
  function Backoff(n: nat): (w: int)
    ensures MinWaitSeconds <= w <= MaxWaitSeconds
  {
    var e := if n == 0 then 1 else Pow2(n - 1);
    if e < MinWaitSeconds then MinWaitSeconds else if e > MaxWaitSeconds then MaxWaitSeconds else e
  }

  /** The waits slept after attempts `lo`, `lo + 1`, ..., `hi - 1`. */
  function Waits(lo: nat, hi: nat): (w: seq<int>)
    requires lo <= hi
    ensures |w| == hi - lo
    ensures forall i :: 0 <= i < |w| ==> MinWaitSeconds <= w[i] <= MaxWaitSeconds
    decreases hi - lo
  {
    if lo == hi then [] else [Backoff(lo)] + Waits(lo + 1, hi)
  }

  /** The retry loop from attempt index `n` (0-based) on; `server(k)` is what the k-th
      attempt meets. */
  function RetryFrom<T>(server: nat -> Attempt<T>, n: nat): (c: Call<T>)
    requires n < MaxAttempts
    ensures n < c.attempts <= MaxAttempts
    ensures c.waits == Waits(n + 1, c.attempts)
    ensures forall k :: n <= k < c.attempts - 1 ==>
      Classify(server(k)).Failure? && IsRequestException(Classify(server(k)).error)
    ensures c.outcome.Success? <==> Classify(server(c.attempts - 1)).Success?
    ensures c.outcome.Success? ==> c.outcome.value == Classify(server(c.attempts - 1)).value
    ensures c.outcome.Failure? && c.outcome.error.Raised? ==>
      Classify(server(c.attempts - 1)) == Failure(c.outcome.error.failure)
      && !IsRequestException(c.outcome.error.failure)
    ensures c.outcome.Failure? && c.outcome.error.RetryError? ==>
      c.attempts == MaxAttempts
      && Classify(server(c.attempts - 1)) == Failure(c.outcome.error.last)
      && IsRequestException(c.outcome.error.last)
    decreases MaxAttempts - n
  {
    var r := Classify(server(n));
    if r.Success? then Call(Success(r.value), n + 1, [])
    else if !IsRequestException(r.error) then Call(Failure(Raised(r.error)), n + 1, [])
    else if n + 1 == MaxAttempts then Call(Failure(RetryError(r.error)), n + 1, [])
    else
      var rest := RetryFrom(server, n + 1);
      Call(rest.outcome, rest.attempts, [Backoff(n + 1)] + rest.waits)
  }

  /** `post`: at most 6 attempts; every attempt but the last raised a RequestException;
      the call returns the first body that passes the checks, re-raises the first other
      exception, or gives up with RetryError after the sixth RequestException. Every
      wait lies in [2, 30] seconds. */
  function Post<T>(server: nat -> Attempt<T>): (c: Call<T>)
    ensures 1 <= c.attempts <= MaxAttempts
    ensures c.waits == Waits(1, c.attempts)
    ensures forall i :: 0 <= i < |c.waits| ==> MinWaitSeconds <= c.waits[i] <= MaxWaitSeconds
    ensures forall k :: 0 <= k < c.attempts - 1 ==>
      Classify(server(k)).Failure? && IsRequestException(Classify(server(k)).error)
    ensures c.outcome.Success? <==> Classify(server(c.attempts - 1)).Success?
    ensures c.outcome.Success? ==> c.outcome.value == Classify(server(c.attempts - 1)).value
    ensures c.outcome.Failure? && c.outcome.error.Raised? ==>
      Classify(server(c.attempts - 1)) == Failure(c.outcome.error.failure)
      && !IsRequestException(c.outcome.error.failure)
    ensures c.outcome.Failure? && c.outcome.error.RetryError? ==>
      c.attempts == MaxAttempts && IsRequestException(c.outcome.error.last)
  {
    RetryFrom(server, 0)
  }

  /** A 401 or a 403 on the first attempt ends the call after that single attempt,
      raising Unauthorized or Forbidden. */
  lemma AuthFailuresNotRetried<T>(server: nat -> Attempt<T>)
    requires server(0).Delivered? && server(0).response.status in {401, 403}
    ensures Post(server).attempts == 1
    ensures server(0).response.status == 401 ==> Post(server).outcome == Failure(Raised(Unauthorized))
    ensures server(0).response.status == 403 ==>
      Post(server).outcome == Failure(Raised(Forbidden(server(0).response.text)))
  {
  }

  /** A server that answers 502 every time is tried six times, with waits of 2, 2, 4,
      8 and 16 seconds, before the call gives up. */
  lemma PersistentServerErrorGivesUp<T>(server: nat -> Attempt<T>, body: T)
    requires forall k :: server(k) == Delivered(Response(502, "", false, body))
    ensures Post(server).attempts == MaxAttempts
    ensures Post(server).outcome == Failure(RetryError(ServerError(502)))
    ensures Post(server).waits == [2, 2, 4, 8, 16]
  {
    var c := Post(server);
    assert c.outcome.Failure? by {
      assert !Classify(server(c.attempts - 1)).Success?;
    }
  }

  /** The variables `search_repos_page` sends: the query string, the page size and the
      cursor, passed through as given. */
  datatype Variables = Variables(queryString: string, first: int, after: Option<string>)

  function SearchReposPage(queryString: string, first: int, after: Option<string>): (v: Variables)
    ensures v.queryString == queryString && v.first == first && v.after == after
  {
    Variables(queryString, first, after)
  }
}

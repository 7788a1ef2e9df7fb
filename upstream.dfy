/** The resilient upstream client: the retry loop with exponential backoff and jitter.
    The upstream service is abstracted as the sequence of replies it gives to successive
    calls, and `Math.random()` as a sequence of jitter values. */
module Upstream {
  import opened Wrappers

  /** `UPSTREAM_MAX_RETRIES`: despite its name, the number of attempts, not of retries. */
  const MaxAttempts: nat := 3
  /** `UPSTREAM_INITIAL_BACKOFF`, in milliseconds. */
  const InitialBackoff: nat := 200

  /** `Math.random() * 100`: a delay addition in [0, 100) milliseconds. */
  type Jitter = r: real | 0.0 <= r < 100.0

  /** The JSON body sent upstream: `{ prompt, provider, modelId }`. */
  datatype UpstreamPayload = UpstreamPayload(prompt: string, provider: string, modelId: string)

  /** How `upstreamResponse.json()` reads a reply body: it throws, or it yields the `image` field. */
  datatype UpstreamJson = Unparsable | Parsed(image: Option<string>)

  /** One upstream call's outcome: an HTTP reply (status, body text, body as JSON), or a
      transport failure that makes `fetch` throw. */
  datatype Reply =
    | Reply(status: nat, body: string, json: UpstreamJson)
    | TransportFailure

  /** `Response.ok`. */
  predicate Ok(status: int)
  {
    200 <= status <= 299
  }

  /** The reply ends the loop: `fetch` threw, the reply is ok, or its status is below 500 and is
      not 429 (Too Many Requests, section 4 of RFC 6585). A 3xx status ends it too. */
  predicate EndsLoop(r: Reply)
  {
    r.TransportFailure? || Ok(r.status) || (r.status < 500 && r.status != 429)
  }

  /** The upstream answers every call the loop can make, and a jitter is drawn for every wait. */
  predicate Scripted(replies: seq<Reply>, jitters: seq<Jitter>)
  {
    |replies| >= MaxAttempts && |jitters| >= MaxAttempts - 1
  }

  /** Number of calls made when the loop is at attempt `k` (0-based) and continues as the source does. */
  function AttemptsFrom(replies: seq<Reply>, k: nat): (n: nat)
    requires |replies| >= MaxAttempts && k < MaxAttempts
    ensures k < n <= MaxAttempts
    ensures forall i :: k <= i < n - 1 ==> !EndsLoop(replies[i])
    ensures EndsLoop(replies[n - 1]) || n == MaxAttempts
    decreases MaxAttempts - k
  {
    if EndsLoop(replies[k]) || k == MaxAttempts - 1 then k + 1
    else AttemptsFrom(replies, k + 1)
  }

  /** Number of upstream calls one request makes. */
  function AttemptsNeeded(replies: seq<Reply>): (n: nat)
    requires |replies| >= MaxAttempts
  {
    AttemptsFrom(replies, 0)
  }

  /** Reference definition: index of the first reply that ends the loop, or `|replies|`. */
  function FirstEnding(replies: seq<Reply>): (i: nat)
    ensures i <= |replies|
  {
    if |replies| == 0 then 0
    else if EndsLoop(replies[0]) then 0
    else 1 + FirstEnding(replies[1..])
  }

  function Min(a: nat, b: nat): nat
  {
    if a <= b then a else b
  }

  function Pow2(k: nat): (p: nat)
    ensures p >= 1
  {
    if k == 0 then 1 else 2 * Pow2(k - 1)
  }

  /** Deterministic part of the wait before attempt `attempt + 1`: `200 * 2 ** attempt`. */
  function Backoff(attempt: nat): nat
  {
    InitialBackoff * Pow2(attempt)
  }

  /** The wait after failed attempt `attempt`. */
  function Delay(attempt: nat, jitter: Jitter): real
  {
    Backoff(attempt) as real + jitter
  }

  /** The waits after the first `n` attempts, in order. */
  function Delays(n: nat, jitters: seq<Jitter>): (ds: seq<real>)
    requires n <= |jitters|
    ensures |ds| == n
    ensures forall k :: 0 <= k < n ==> ds[k] == Delay(k, jitters[k])
  {
    seq(n, k requires 0 <= k < n => Delay(k, jitters[k]))
  }

  /** The retry loop of the image handler. It calls the upstream with the same payload until a
      reply ends the loop or `MaxAttempts` calls were made, waiting `Delay(k, jitters[k])`
      after a failed attempt `k` unless it was the last one. */
  method CallWithRetry(payload: UpstreamPayload, replies: seq<Reply>, jitters: seq<Jitter>)
    returns (last: Reply, sent: seq<UpstreamPayload>, delays: seq<real>)
    requires Scripted(replies, jitters)
    ensures |sent| == AttemptsNeeded(replies)
    ensures forall i :: 0 <= i < |sent| ==> sent[i] == payload
    ensures last == replies[|sent| - 1]
    ensures delays == Delays(|sent| - 1, jitters)
  {
    sent, delays := [], [];
    var attempt := 0;
    while attempt < MaxAttempts
      invariant attempt < MaxAttempts
      invariant |sent| == attempt
      invariant forall i :: 0 <= i < |sent| ==> sent[i] == payload
      invariant delays == Delays(attempt, jitters)
      invariant AttemptsNeeded(replies) == AttemptsFrom(replies, attempt)
      decreases MaxAttempts - attempt
    {
      last := replies[attempt];
      sent := sent + [payload];
      if EndsLoop(last) {
        break;
      }
      if attempt == MaxAttempts - 1 {
        break;
      }
      delays := delays + [Delay(attempt, jitters[attempt])];
      attempt := attempt + 1;
    }
  }

  /** The number of calls is the index of the first reply that is ok, or is below 500 and not
      429, plus one, capped at `MaxAttempts`. */
  lemma AttemptsAreCappedFirstEnding(replies: seq<Reply>)
    requires |replies| >= MaxAttempts
    ensures AttemptsNeeded(replies) == Min(FirstEnding(replies) + 1, MaxAttempts)
    ensures 1 <= AttemptsNeeded(replies) <= MaxAttempts
  {
  }

  /** Every call but the last received a retryable reply (429 or at least 500), and the last
      reply ended the loop unless the attempts ran out. */
  lemma AttemptsCharacterized(replies: seq<Reply>)
    requires |replies| >= MaxAttempts
    ensures var n := AttemptsNeeded(replies);
      && 1 <= n <= MaxAttempts
      && (forall i :: 0 <= i < n - 1 ==> replies[i].Reply? && (replies[i].status == 429 || replies[i].status >= 500))
      && (EndsLoop(replies[n - 1]) || n == MaxAttempts)
  {
  }

  /** Each wait lies in [200 * 2^k, 200 * 2^k + 100), and the waits strictly grow, because
      consecutive backoffs differ by at least 200 while the jitter stays below 100. */
  lemma DelaysBoundedAndIncreasing(n: nat, jitters: seq<Jitter>)
    requires n <= |jitters|
    ensures forall k :: 0 <= k < n ==> Backoff(k) as real <= Delays(n, jitters)[k] < Backoff(k) as real + 100.0
    ensures forall k :: 0 <= k < n - 1 ==> Backoff(k) < Backoff(k + 1)
    ensures forall k :: 0 <= k < n - 1 ==> Delays(n, jitters)[k] < Delays(n, jitters)[k + 1]
  {
  }
}

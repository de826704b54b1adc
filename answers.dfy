/** Shared vocabulary for the remote service: optional values, the outcome of one
    remote call, and the streams of answers that stand for the service. */
module Answers {

  datatype Option<+T> = None | Some(value: T)

  /** The outcome of one call to the remote service: a result, an HTTP 429
      ("too many requests"), or any other error (another HTTP status or an
      exception of any other kind). */
  datatype Outcome<+T> = Ok(value: T) | RateLimited | Failed

  /** The k-th answer of a stream of answers.  The stream records what the
      service answers to successive calls of one kind; a call past the end of
      the recorded answers fails. */
  function Answer<T>(answers: seq<Outcome<T>>, k: nat): (o: Outcome<T>)
    ensures k < |answers| ==> o == answers[k]
    ensures k >= |answers| ==> o == Failed
  {
    if k < |answers| then answers[k] else Failed
  }

  /** The answers left once the first n have been used. */
  function Drop<T>(answers: seq<Outcome<T>>, n: nat): seq<Outcome<T>>
  {
    if n <= |answers| then answers[n..] else []
  }

  /** The k-th answer left after dropping n is the (n + k)-th answer. */
  lemma AnswerAfterDrop<T>(answers: seq<Outcome<T>>, n: nat, k: nat)
    ensures Answer(Drop(answers, n), k) == Answer(answers, n + k)
  {
  }

  /** `2 ** k`, the back-off delay in seconds after the k-th (0-based) attempt. */
  function Pow2(k: nat): (p: nat)
    ensures p >= 1
  {
    if k == 0 then 1 else 2 * Pow2(k - 1)
  }

  /** The delays slept by n consecutive rate-limited attempts: 1, 2, 4, ... */
  function Backoff(n: nat): (d: seq<nat>)
    ensures |d| == n
    ensures forall k :: 0 <= k < n ==> d[k] == Pow2(k)
  {
    if n == 0 then [] else Backoff(n - 1) + [Pow2(n - 1)]
  }
}

/** The bounded retry every remote call of the playlister goes through: up to
    `max_retries` attempts; an HTTP 429 sleeps `2 ** attempt` seconds and tries
    again, a success or any other error ends the loop. */
module Retrying {
  import opened Answers

  /** What one retried call came to: the value (None when every attempt was
      rate limited or another error ended the loop), how many calls were made,
      and the seconds slept between them. */
  datatype RetryRun<T> = RetryRun(result: Option<T>, attempts: nat, sleeps: seq<nat>)

  /** The retry loop from attempt number `attempt` on. */
  function RetryFrom<T>(answers: seq<Outcome<T>>, maxRetries: int, attempt: nat): (run: RetryRun<T>)
    decreases maxRetries - attempt
  {
    if attempt >= maxRetries then RetryRun(None, attempt, [])
    else match Answer(answers, attempt)
      case Ok(v) => RetryRun(Some(v), attempt + 1, [])
      case Failed => RetryRun(None, attempt + 1, [])
      case RateLimited =>
        var rest := RetryFrom(answers, maxRetries, attempt + 1);
        RetryRun(rest.result, rest.attempts, [Pow2(attempt)] + rest.sleeps)
  }

  /** The whole retry loop, `for attempt in range(max_retries)`. */
  function Retry<T>(answers: seq<Outcome<T>>, maxRetries: int): RetryRun<T>
  {
    RetryFrom(answers, maxRetries, 0)
  }

  /** The last call made settled the loop: it was answered by something other
      than a 429. */
  predicate Settled<T>(answers: seq<Outcome<T>>, run: RetryRun<T>)
  {
    run.attempts >= 1 && !Answer(answers, run.attempts - 1).RateLimited?
  }

  /** What the retry loop from `attempt` on guarantees, in terms of the answers
      it consumes. */
  lemma {:induction false} RetryFromFacts<T>(answers: seq<Outcome<T>>, maxRetries: int, attempt: nat)
    requires attempt <= maxRetries
    ensures var run := RetryFrom(answers, maxRetries, attempt);
      && attempt <= run.attempts <= maxRetries
      && (attempt < maxRetries ==> attempt < run.attempts)
      && (forall k :: attempt <= k < run.attempts - 1 ==> Answer(answers, k).RateLimited?)
      && (run.attempts < maxRetries ==> Settled(answers, run))
      && |run.sleeps| == run.attempts - attempt - (if run.attempts > attempt && Settled(answers, run) then 1 else 0)
      && (forall i :: 0 <= i < |run.sleeps| ==> run.sleeps[i] == Pow2(attempt + i))
      && (run.result.Some? <==> run.attempts > attempt && Answer(answers, run.attempts - 1).Ok?)
      && (run.result.Some? ==> Answer(answers, run.attempts - 1) == Ok(run.result.value))
    decreases maxRetries - attempt
  {
    if attempt < maxRetries && Answer(answers, attempt).RateLimited? {
      RetryFromFacts(answers, maxRetries, attempt + 1);
      var rest := RetryFrom(answers, maxRetries, attempt + 1);
      var run := RetryFrom(answers, maxRetries, attempt);
      assert run.sleeps == [Pow2(attempt)] + rest.sleeps;
      forall i | 0 <= i < |run.sleeps|
        ensures run.sleeps[i] == Pow2(attempt + i)
      {
        if i > 0 {
          assert run.sleeps[i] == rest.sleeps[i - 1];
        }
      }
    }
  }

  /** The retry loop's contract: it makes at most `max_retries` calls (at least
      one when `max_retries >= 1`); every call but the last was answered by a
      429; it stops before the last attempt only on a non-429 answer; it sleeps
      1, 2, 4, ... seconds after each 429 it retries or gives up on; and it
      yields a value exactly when its last call succeeded. */
  lemma RetryContract<T>(answers: seq<Outcome<T>>, maxRetries: int)
    ensures var run := Retry(answers, maxRetries);
      && run.attempts <= (if maxRetries < 0 then 0 else maxRetries)
      && (maxRetries >= 1 ==> run.attempts >= 1)
      && (forall k :: 0 <= k < run.attempts - 1 ==> Answer(answers, k).RateLimited?)
      && (run.attempts < maxRetries ==> Settled(answers, run))
      && run.sleeps == Backoff(if Settled(answers, run) then run.attempts - 1 else run.attempts)
      && (run.result.Some? <==> Settled(answers, run) && Answer(answers, run.attempts - 1).Ok?)
      && (run.result.Some? ==> Answer(answers, run.attempts - 1) == Ok(run.result.value))
  {
    if maxRetries >= 0 {
      RetryFromFacts(answers, maxRetries, 0);
    }
  }

  /** A success uses up at least one answer, and the last answer it used was
      a success. */
  lemma RetrySuccessUsesAnswers<T>(answers: seq<Outcome<T>>, maxRetries: int)
    ensures var run := Retry(answers, maxRetries);
      run.result.Some? ==> 1 <= run.attempts && Answer(answers, run.attempts - 1).Ok?
  {
    RetryContract(answers, maxRetries);
  }

  /** With at least one attempt, a first answer other than a 429 settles the
      call at once. */
  lemma RetryFirstAnswer<T>(answers: seq<Outcome<T>>, maxRetries: int)
    requires maxRetries >= 1
    ensures Answer(answers, 0).Ok? ==> Retry(answers, maxRetries) == RetryRun(Some(Answer(answers, 0).value), 1, [])
    ensures Answer(answers, 0).Failed? ==> Retry(answers, maxRetries) == RetryRun(None, 1, [])
  {
  }

  /** When the first `max_retries` calls are all answered by a 429 the loop
      gives up with nothing, having slept after each of them. */
  lemma RetryExhausted<T>(answers: seq<Outcome<T>>, maxRetries: nat)
    requires forall k :: 0 <= k < maxRetries ==> Answer(answers, k).RateLimited?
    ensures Retry(answers, maxRetries) == RetryRun(None, maxRetries, Backoff(maxRetries))
  {
    RetryContract(answers, maxRetries);
    var run := Retry(answers, maxRetries);
    if run.attempts < maxRetries {
      assert false;
    }
  }

  /** The result of a run with the sleeps of earlier rate-limited attempts in front. */
  function AfterSleeps<T>(slept: seq<nat>, run: RetryRun<T>): RetryRun<T>
  {
    RetryRun(run.result, run.attempts, slept + run.sleeps)
  }

  /** The retry loop itself: one remote call per iteration, answered by the
      stream; returns what the loop produced. */
  method CallWithRetries<T>(answers: seq<Outcome<T>>, maxRetries: int) returns (run: RetryRun<T>)
    ensures run == Retry(answers, maxRetries)
  {
    var attempt: nat := 0;
    var slept: seq<nat> := [];
    while attempt < maxRetries
      invariant Retry(answers, maxRetries) == AfterSleeps(slept, RetryFrom(answers, maxRetries, attempt))
      decreases maxRetries - attempt
    {
      var answer := Answer(answers, attempt);
      if answer.Ok? {
        return RetryRun(Some(answer.value), attempt + 1, slept);
      } else if answer.Failed? {
        return RetryRun(None, attempt + 1, slept);
      }
      var rest := RetryFrom(answers, maxRetries, attempt + 1);
      assert slept + ([Pow2(attempt)] + rest.sleeps) == (slept + [Pow2(attempt)]) + rest.sleeps;
      slept := slept + [Pow2(attempt)];
      attempt := attempt + 1;
    }
    return RetryRun(None, attempt, slept);
  }

  /** `count` retried calls made one after another against one stream of
      answers: each call uses the answers the previous ones left. */
  function RetryEach<T>(answers: seq<Outcome<T>>, count: nat, maxRetries: int): (runs: seq<RetryRun<T>>)
    ensures |runs| == count
    decreases count
  {
    if count == 0 then []
    else
      var run := Retry(answers, maxRetries);
      [run] + RetryEach(Drop(answers, run.attempts), count - 1, maxRetries)
  }
}

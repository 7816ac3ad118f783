/** The retrying call executor, reduced to its success/failure contract.
    The argument is what the call finally produced once the retry policy
    gave up or succeeded; attempt counting, backoff and cancellation belong
    to the retry library. */
module Retry {
  import opened Base
  import opened GitHub

  const AfterRetries := " after retries"

  /** Success passes data and response through untouched; failure carries
      no data and no response, and its message names the call. */
  function RetryGithubCall<V>(callDesc: string, outcome: Reply<V>): (r: Reply<V>)
    ensures outcome.Reply? ==> r == outcome
    ensures outcome.CallFailed? <==> r.CallFailed?
    ensures r.CallFailed? ==> IsPrefix(callDesc + AfterRetries, r.cause)
    ensures r.CallFailed? ==> HasSuffix(r.cause, outcome.cause)
  {
    match outcome
    case Reply(_, _) => outcome
    case CallFailed(cause) => CallFailed(callDesc + AfterRetries + ": " + cause)
  }

  /** The wrapped message still holds the original cause, recoverable by
      dropping the description prefix. */
  lemma UnwrapCause<V>(callDesc: string, cause: string)
    ensures var failed: Reply<V> := CallFailed(cause);
            RetryGithubCall(callDesc, failed).cause[|callDesc + AfterRetries + ": "|..] == cause
  {
  }
}

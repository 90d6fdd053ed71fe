/**
 * The bounded retry loops of both scripts (`safe_get_text`, the LLM call in
 * `get_sentiment_score`, `fetch_finnhub_data`) all try up to a fixed number
 * of times and keep the first attempt that did not raise. Attempt `k`
 * (counting from 0) is described by `reply(k)`: `None` when it raised,
 * `Some(v)` when it produced `v`. The sleeps between attempts are timing only.
 */
module Retry {
  import opened Optional

  /** The first successful reply among attempts `from`, ..., `attempts - 1`. */
  function FirstSuccessFrom<T>(reply: nat -> Option<T>, from: nat, attempts: nat): (r: Option<T>)
    ensures r.None? <==> forall k :: from <= k < attempts ==> reply(k).None?
    ensures r.Some? ==> exists k :: from <= k < attempts && reply(k) == r && forall j :: from <= j < k ==> reply(j).None?
    ensures forall k :: from <= k < attempts && reply(k).Some? && (forall j :: from <= j < k ==> reply(j).None?)
                        ==> r == reply(k)
    decreases attempts - from
  {
    if from >= attempts then None
    else if reply(from).Some? then reply(from)
    else FirstSuccessFrom(reply, from + 1, attempts)
  }

  /** What a retry loop of `attempts` tries returns: the first successful reply, if any. */
  function FirstSuccess<T>(reply: nat -> Option<T>, attempts: nat): Option<T> {
    FirstSuccessFrom(reply, 0, attempts)
  }
}

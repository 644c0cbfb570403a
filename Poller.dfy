/** The bounded polling loop that waits for a prediction to finish. Each
    fetch of the prediction is an input: `fetch(i)` is what the i-th fetch
    (counting from 0) yields, either a decoded prediction or a failure to
    send the request or decode its answer. */
module Poller {
  import opened Wrappers
  import opened Types

  const MaxAttempts := 30

  const Succeeded := "succeeded"
  const Failed := "failed"
  const Canceled := "canceled"

  datatype Fetch = Received(response: PredictionResponse) | FetchFailed(message: string)

  datatype PollError =
    | TransportError(message: string)     // the request could not be sent or its answer decoded
    | PredictionFailed(detail: string)    // the prediction failed or was canceled; carries its error text
    | PollingTimeout(attempts: nat)       // no terminal status within the attempt ceiling

  type PollOutcome = Result<PredictionResponse, PollError>

  /** A fetch after which the loop sleeps and fetches again. */
  predicate Continues(f: Fetch)
  {
    f.Received? && f.response.status != Succeeded && f.response.status != Failed && f.response.status != Canceled
  }

  /** The outcome of a fetch that ends the loop. */
  function Verdict(f: Fetch): (r: PollOutcome)
    requires !Continues(f)
    ensures r.Success? <==> f.Received? && f.response.status == Succeeded
    ensures r.Success? ==> r.value == f.response
    ensures f.FetchFailed? ==> r == Failure(TransportError(f.message))
    ensures f.Received? && f.response.status != Succeeded ==> r == Failure(PredictionFailed(f.response.error))
  {
    match f
    case FetchFailed(m) => Failure(TransportError(m))
    case Received(resp) =>
      if resp.status == Succeeded then Success(resp) else Failure(PredictionFailed(resp.error))
  }

  /** Reference definition of the loop once `i` fetches have continued: the
      outcome and the total number of fetches made. */
  function PollFrom(fetch: nat -> Fetch, i: nat): (PollOutcome, nat)
    requires i <= MaxAttempts
    decreases MaxAttempts - i
  {
    if i == MaxAttempts then (Failure(PollingTimeout(MaxAttempts)), MaxAttempts)
    else if !Continues(fetch(i)) then (Verdict(fetch(i)), i + 1)
    else PollFrom(fetch, i + 1)
  }

  function Poll(fetch: nat -> Fetch): (PollOutcome, nat)
  {
    PollFrom(fetch, 0)
  }

  /** The polling loop: fetch, stop on a terminal status or a failed fetch,
      otherwise wait and fetch again, at most MaxAttempts times. */
  method PollResult(fetch: nat -> Fetch) returns (outcome: PollOutcome, fetches: nat)
    ensures (outcome, fetches) == Poll(fetch)
    ensures outcome.Success? ==> outcome.value.status == Succeeded
  {
    var i := 0;
    while i < MaxAttempts
      invariant 0 <= i <= MaxAttempts
      invariant Poll(fetch) == PollFrom(fetch, i)
    {
      var f := fetch(i);
      if f.FetchFailed? {
        return Failure(TransportError(f.message)), i + 1;
      }
      var result := f.response;
      if result.status == Succeeded {
        return Success(result), i + 1;
      } else if result.status == Failed || result.status == Canceled {
        return Failure(PredictionFailed(result.error)), i + 1;
      }
      i := i + 1;
    }
    return Failure(PollingTimeout(MaxAttempts)), MaxAttempts;
  }

  /** The loop makes at least one fetch and never more than MaxAttempts. */
  lemma {:induction false} PollFetchBounds(fetch: nat -> Fetch, i: nat)
    requires i < MaxAttempts
    ensures i < PollFrom(fetch, i).1 <= MaxAttempts
    decreases MaxAttempts - i
  {
    if Continues(fetch(i)) && i + 1 < MaxAttempts {
      PollFetchBounds(fetch, i + 1);
    }
  }

  /** If fetch k is the first that does not continue and k < MaxAttempts,
      the loop stops after exactly k + 1 fetches with that fetch's verdict:
      success for "succeeded", an error for "failed", "canceled" or a failed
      fetch. */
  lemma {:induction false} PollStopsAtFirstStop(fetch: nat -> Fetch, i: nat, k: nat)
    requires i <= k < MaxAttempts
    requires !Continues(fetch(k))
    requires forall j :: i <= j < k ==> Continues(fetch(j))
    ensures PollFrom(fetch, i) == (Verdict(fetch(k)), k + 1)
    decreases k - i
  {
    if i < k {
      PollStopsAtFirstStop(fetch, i + 1, k);
    }
  }

  /** If none of the first MaxAttempts fetches ends the loop, it gives up
      with a timeout after exactly MaxAttempts fetches. */
  lemma {:induction false} PollTimesOut(fetch: nat -> Fetch, i: nat)
    requires i <= MaxAttempts
    requires forall j :: i <= j < MaxAttempts ==> Continues(fetch(j))
    ensures PollFrom(fetch, i) == (Failure(PollingTimeout(MaxAttempts)), MaxAttempts)
    decreases MaxAttempts - i
  {
    if i < MaxAttempts {
      PollTimesOut(fetch, i + 1);
    }
  }

  /** A prediction that reports "processing" five times and then
      "succeeded" is returned after exactly six fetches. */
  lemma SucceedsOnSixthFetch(processing: PredictionResponse, done: PredictionResponse)
    requires processing.status == "processing" && done.status == Succeeded
    ensures Poll(i => if i < 5 then Received(processing) else Received(done)) == (Success(done), 6)
  {
    var fetch: nat -> Fetch := i => if i < 5 then Received(processing) else Received(done);
    PollStopsAtFirstStop(fetch, 0, 5);
  }
}

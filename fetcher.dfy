/** One page request with bounded retry (`get_transactions_mempool`).
    The HTTP call is an oracle: `call(k)` is what attempt number k yields. */
module Fetcher {
  import opened Chain

  /** What one GET of the transaction page produces. */
  datatype Outcome =
    | Ok(page: seq<Tx>)  // the parsed JSON page
    | Transient          // ChunkedEncodingError: an interrupted response
    | OtherError         // any other RequestException

  /** The page returned, the number of requests issued and the number of
      back-off sleeps taken. */
  datatype Fetched = Fetched(page: seq<Tx>, attempts: nat, backoffs: nat)

  const DefaultMaxRetries: nat := 3
  const BackoffSeconds: nat := 3

  /** The fetcher from attempt `attempt` on, every earlier attempt having
      been transient (so each of them was followed by one back-off). */
  function FetchFrom(call: nat -> Outcome, attempt: nat, maxRetries: nat): Fetched
    decreases if attempt < maxRetries then maxRetries - attempt else 0
  {
    if attempt >= maxRetries then Fetched([], attempt, attempt)
    else match call(attempt)
      case Ok(p) => Fetched(p, attempt + 1, attempt)
      case Transient => FetchFrom(call, attempt + 1, maxRetries)
      case OtherError => Fetched([], attempt + 1, attempt)
  }

  /** The specification of one fetch. */
  function Fetch(call: nat -> Outcome, maxRetries: nat): Fetched
  {
    FetchFrom(call, 0, maxRetries)
  }

  /** A run of transient attempts only moves the fetcher forward. */
  lemma {:induction false} FetchFromSkips(call: nat -> Outcome, from: nat, k: nat, maxRetries: nat)
    requires from <= k <= maxRetries
    requires forall j :: from <= j < k ==> call(j).Transient?
    ensures FetchFrom(call, from, maxRetries) == FetchFrom(call, k, maxRetries)
    decreases k - from
  {
    if from < k {
      FetchFromSkips(call, from + 1, k, maxRetries);
    }
  }

  /** k transient attempts followed by a decisive one, within the limit:
      the fetcher makes k + 1 requests and k back-offs, and returns the page
      of a success, or the empty list after any other request error. */
  lemma FetchFirstDecisive(call: nat -> Outcome, maxRetries: nat, k: nat)
    requires k < maxRetries
    requires forall j :: 0 <= j < k ==> call(j).Transient?
    requires !call(k).Transient?
    ensures Fetch(call, maxRetries) == Fetched(if call(k).Ok? then call(k).page else [], k + 1, k)
  {
    FetchFromSkips(call, 0, k, maxRetries);
  }

  /** Every permitted attempt transient: the fetcher gives up after exactly
      `maxRetries` requests and back-offs, with the empty list. */
  lemma FetchExhausted(call: nat -> Outcome, maxRetries: nat)
    requires forall j :: 0 <= j < maxRetries ==> call(j).Transient?
    ensures Fetch(call, maxRetries) == Fetched([], maxRetries, maxRetries)
  {
    FetchFromSkips(call, 0, maxRetries, maxRetries);
  }

  /** The general shape of any fetch: never more than `maxRetries`
      requests; every back-off follows a transient attempt; a non-empty page
      is the page of the last request; and the loop ended early only on a
      decisive outcome. */
  lemma {:induction false} FetchShape(call: nat -> Outcome, maxRetries: nat)
    ensures var r := Fetch(call, maxRetries);
      && r.attempts <= maxRetries
      && (forall j :: 0 <= j < r.backoffs ==> call(j).Transient?)
      && (r.backoffs == r.attempts || (r.backoffs + 1 == r.attempts && !call(r.backoffs).Transient?))
      && (r.page != [] ==> r.attempts > 0 && call(r.attempts - 1) == Ok(r.page))
  {
    var k := 0;
    while k < maxRetries && call(k).Transient?
      invariant k <= maxRetries
      invariant forall j :: 0 <= j < k ==> call(j).Transient?
    {
      k := k + 1;
    }
    if k == maxRetries {
      FetchExhausted(call, maxRetries);
    } else {
      FetchFirstDecisive(call, maxRetries, k);
    }
  }

  /** `get_transactions_mempool`: up to `maxRetries` attempts; a success
      returns its page at once, a transient error backs off and retries, any
      other request error stops the loop; then the empty list. */
  method GetTransactions(call: nat -> Outcome, maxRetries: nat)
    returns (page: seq<Tx>, attempts: nat, backoffs: nat)
    ensures Fetched(page, attempts, backoffs) == Fetch(call, maxRetries)
    ensures attempts <= maxRetries
    ensures forall j :: 0 <= j < backoffs ==> call(j).Transient?
    ensures page != [] ==> attempts > 0 && call(attempts - 1) == Ok(page)
  {
    page, attempts, backoffs := [], 0, 0;
    for attempt := 0 to maxRetries
      invariant attempts == attempt && backoffs == attempt
      invariant forall j :: 0 <= j < attempt ==> call(j).Transient?
      invariant FetchFrom(call, attempt, maxRetries) == Fetch(call, maxRetries)
    {
      attempts := attempts + 1;
      match call(attempt) {
        case Ok(p) =>
          page := p;
          return;
        case Transient =>
          backoffs := backoffs + 1;  // sleep BackoffSeconds, then retry
        case OtherError =>
          break;
      }
    }
  }
}

/** The pagination loop of `process_transactions`: walk an address's history
    backwards, page by page, with the last transaction's id as the cursor. */
module Walker {
  import opened Chain
  import opened Fetcher

  /** The explorer as seen for one address: the outcome of attempt k of the
      request carrying cursor `after_txid`. */
  type Network = Option<string> -> nat -> Outcome

  const DefaultMaxTransactions: nat := 1000

  /** The list the fetcher returns for a request with the given cursor. */
  function Page(net: Network, cursor: Option<string>): seq<Tx>
  {
    Fetch(net(cursor), DefaultMaxRetries).page
  }

  /** The cursor for the next request: the id of the batch's last (oldest)
      transaction. */
  function NextCursor(batch: seq<Tx>): Option<string>
    requires batch != []
  {
    Some(batch[|batch| - 1].txid)
  }

  /** The transactions gathered by the requests `reqs`, in request order. */
  function Collected(net: Network, reqs: seq<Option<string>>): seq<Tx>
  {
    if reqs == [] then [] else Collected(net, reqs[..|reqs| - 1]) + Page(net, reqs[|reqs| - 1])
  }

  /** The requests issued by a walk and the transactions it keeps. */
  datatype Walked = Walked(txs: seq<Tx>, requests: seq<Option<string>>)

  /** The loop from a state with cursor `after`, accumulated list `acc` and
      requests `reqs` issued so far. */
  function WalkFrom(net: Network, maxTransactions: nat, after: Option<string>,
                    acc: seq<Tx>, reqs: seq<Option<string>>): Walked
    decreases if |acc| < maxTransactions then maxTransactions - |acc| else 0
  {
    if |acc| >= maxTransactions then Walked(acc, reqs)
    else
      var batch := Page(net, after);
      if batch == [] then Walked(acc, reqs + [after])
      else WalkFrom(net, maxTransactions, NextCursor(batch), acc + batch, reqs + [after])
  }

  function Min(a: int, b: int): int { if a <= b then a else b }

  /** The specification of the walk: the loop from the initial state, its
      result truncated to `maxTransactions`. */
  function Walk(net: Network, maxTransactions: nat): Walked
  {
    var w := WalkFrom(net, maxTransactions, None, [], []);
    Walked(w.txs[..Min(|w.txs|, maxTransactions)], w.requests)
  }

  /** The request sequence of a walk in progress: the first request carries
      no cursor; each later one carries the id of the last transaction of
      the previous, non-empty, batch; and each was issued while fewer than
      `maxTransactions` transactions had been gathered. */
  ghost predicate IsTrace(net: Network, maxTransactions: nat, reqs: seq<Option<string>>)
  {
    && (reqs != [] ==> reqs[0] == None)
    && (forall k :: 0 <= k < |reqs| - 1 ==>
          Page(net, reqs[k]) != [] && reqs[k + 1] == NextCursor(Page(net, reqs[k])))
    && (forall k :: 0 <= k <= |reqs| - 1 ==> |Collected(net, reqs[..k])| < maxTransactions)
  }

  /** The walk ended: on an empty batch, or with at least `maxTransactions`
      transactions gathered (with no request at all when the cap is 0). */
  ghost predicate Stopped(net: Network, maxTransactions: nat, reqs: seq<Option<string>>)
  {
    if reqs == [] then maxTransactions == 0
    else Page(net, reqs[|reqs| - 1]) == [] || |Collected(net, reqs)| >= maxTransactions
  }

  lemma {:induction false} WalkFromTrace(net: Network, maxTransactions: nat, after: Option<string>,
                                         acc: seq<Tx>, reqs: seq<Option<string>>)
    requires IsTrace(net, maxTransactions, reqs)
    requires acc == Collected(net, reqs)
    requires reqs == [] ==> after == None
    requires reqs != [] ==> Page(net, reqs[|reqs| - 1]) != [] && after == NextCursor(Page(net, reqs[|reqs| - 1]))
    ensures var w := WalkFrom(net, maxTransactions, after, acc, reqs);
      && IsTrace(net, maxTransactions, w.requests)
      && Stopped(net, maxTransactions, w.requests)
      && w.txs == Collected(net, w.requests)
    decreases if |acc| < maxTransactions then maxTransactions - |acc| else 0
  {
    if |acc| < maxTransactions {
      var batch := Page(net, after);
      var reqs' := reqs + [after];
      assert reqs'[..|reqs'| - 1] == reqs;
      assert Collected(net, reqs') == acc + batch;
      forall k | 0 <= k <= |reqs'| - 1
        ensures |Collected(net, reqs'[..k])| < maxTransactions
      {
        if k < |reqs'| - 1 {
          assert reqs'[..k] == reqs[..k];
        } else {
          assert reqs'[..k] == reqs;
        }
      }
      assert IsTrace(net, maxTransactions, reqs');
      if batch != [] {
        WalkFromTrace(net, maxTransactions, NextCursor(batch), acc + batch, reqs');
      }
    }
  }

  /** What the walk does, for every network: its requests form a trace that
      stopped on an empty batch or at the cap, and it keeps the
      concatenation of the returned batches truncated to `maxTransactions`. */
  lemma WalkSpec(net: Network, maxTransactions: nat)
    ensures var w := Walk(net, maxTransactions);
      && IsTrace(net, maxTransactions, w.requests)
      && Stopped(net, maxTransactions, w.requests)
      && (var all := Collected(net, w.requests);
          w.txs == all[..Min(|all|, maxTransactions)])
      && |w.txs| <= maxTransactions
  {
    WalkFromTrace(net, maxTransactions, None, [], []);
  }

  /** The request sequence of a finished walk is determined: any trace that
      stopped is the one the walk issues. */
  lemma TraceIsUnique(net: Network, maxTransactions: nat, reqs: seq<Option<string>>)
    requires IsTrace(net, maxTransactions, reqs) && Stopped(net, maxTransactions, reqs)
    ensures reqs == Walk(net, maxTransactions).requests
  {
    WalkSpec(net, maxTransactions);
    TracesAgree(net, maxTransactions, reqs, Walk(net, maxTransactions).requests, 0);
  }

  lemma {:induction false} TracesAgree(net: Network, maxTransactions: nat,
                                       a: seq<Option<string>>, b: seq<Option<string>>, n: nat)
    requires IsTrace(net, maxTransactions, a) && Stopped(net, maxTransactions, a)
    requires IsTrace(net, maxTransactions, b) && Stopped(net, maxTransactions, b)
    requires n <= |a| && n <= |b| && a[..n] == b[..n]
    ensures a == b
    decreases |a| - n
  {
    if n == |a| || n == |b| {
      NotStoppedBeforeEnd(net, maxTransactions, a, n);
      NotStoppedBeforeEnd(net, maxTransactions, b, n);
      assert a[..|a|] == a && b[..|b|] == b;
    } else {
      assert a[n] == b[n] by {
        if n > 0 {
          assert a[n - 1] == a[..n][n - 1] == b[..n][n - 1] == b[n - 1];
        }
      }
      assert a[..n + 1] == b[..n + 1] by {
        assert a[..n + 1] == a[..n] + [a[n]];
        assert b[..n + 1] == b[..n] + [b[n]];
      }
      TracesAgree(net, maxTransactions, a, b, n + 1);
    }
  }

  /** A trace had not stopped before its last request. */
  lemma NotStoppedBeforeEnd(net: Network, maxTransactions: nat, a: seq<Option<string>>, n: nat)
    ensures n < |a| && IsTrace(net, maxTransactions, a) ==> !Stopped(net, maxTransactions, a[..n])
  {
    if n < |a| && IsTrace(net, maxTransactions, a) {
      assert |Collected(net, a[..n])| < maxTransactions;
      if n > 0 {
        assert a[..n][n - 1] == a[n - 1];
      }
    }
  }

  /** The walker loop of `process_transactions`, with the fetcher's default
      retry limit; `requests` lists the cursor of every fetch, in order. */
  method WalkHistory(net: Network, maxTransactions: nat)
    returns (txs: seq<Tx>, requests: seq<Option<string>>)
    ensures Walked(txs, requests) == Walk(net, maxTransactions)
    ensures |txs| <= maxTransactions
  {
    var transactions: seq<Tx> := [];
    var after: Option<string> := None;
    requests := [];
    while |transactions| < maxTransactions
      invariant WalkFrom(net, maxTransactions, after, transactions, requests)
             == WalkFrom(net, maxTransactions, None, [], [])
      decreases maxTransactions - |transactions|
    {
      var batch, attempts, backoffs := GetTransactions(net(after), DefaultMaxRetries);
      requests := requests + [after];
      if batch == [] {
        break;
      }
      transactions := transactions + batch;
      after := Some(batch[|batch| - 1].txid);
    }
    txs := transactions[..Min(|transactions|, maxTransactions)];
  }
}

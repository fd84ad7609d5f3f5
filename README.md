# On-chain exchange flows: a Dafny model of `onchain.py`

This project models the sequential logic of `onchain.py` in the
btc-auto-trader repository. That script walks the transaction history of
known exchange wallets on a block explorer and derives per-date exchange
inflow and outflow totals. It also filters chart series from a charting API
to a date window.

The modelled parts:

- **Fetcher** (`fetcher.dfy`) is `get_transactions_mempool`, a loop over at
  most `max_retries` attempts:
  - a success returns its page at once;
  - an interrupted response (ChunkedEncodingError) backs off and retries;
  - any other request error stops the loop.
  
  The HTTP call is an oracle `call: nat -> Outcome`, where `call(k)` is what
  attempt `k` yields. The method returns the page together with the number
  of requests issued and the number of back-offs taken.
- **Walker** (`walker.dfy`) is the `while` loop of `process_transactions`.
  - It paginates with the id of the last transaction of each batch as the
    cursor.
  - It stops on an empty batch or once `max_transactions` transactions have
    been gathered, then truncates to that cap.
  - The explorer as seen for one address is an oracle `Network`: for each
    cursor, the outcome of each attempt.
- **Flows** (`flows.dfy`) are the per-transaction loops.
  - `sent` is the sum of the prevout values of the inputs owned by the
    tracked address, and `received` is the sum of the outputs paying it.
  - The date is the formatted block time, or the sentinel `"Unconfirmed"`.
  - Amounts are integer satoshis.
- **Summary** (`summary.dfy`) is the summarizer of `load_addr`:
  - build the frame with labels 0, 1, …;
  - sort by date;
  - drop unconfirmed rows in the label loop at lines 94-96;
  - add `net = sent − received`;
  - group by the date string, summing the three amount columns.

  String order is Python's: lexicographic by code point, in `lex.dfy`.
- **Pipeline** (`pipeline.dfy`) is the shared `data` list as a class
  `FlowTable`, with `process_transactions` as its method, and `load_addr`
  processing every address and summarizing.
- **Charts** (`charts.dfy`) is the `values` check and the inclusive window
  filter of `fetch_network_data` and `fetch_utxo_data`.

Three behaviours of the code are kept exactly as written, although they
may not be what was meant:

- The summary groups by the full `"%Y-%m-%d %H:%M:%S"` string, not by
  calendar day.
- An exhausted retry budget, another request error and an empty page all
  end pagination the same way, with an empty list.
- The window filter compares the points' second-resolution timestamps with
  bounds taken from `datetime.now()`, which has microsecond resolution. The
  model keeps the bounds in microseconds.

## Model

| member | source | states |
|---|---|---|
| Fetcher.GetTransactions | onchain.py:16-36 | The retry loop returns exactly what the reference fetch `Fetch` gives: at most `maxRetries` requests, one back-off after each transient attempt, and a non-empty page only as the result of the last request. |
| Fetcher.FetchFromSkips | onchain.py:28-30 | A run of transient attempts only advances the attempt counter. |
| Fetcher.FetchFirstDecisive | onchain.py:22-34 | After k transient attempts, a success at attempt k returns its page, and any other error returns `[]`. Either way the fetch makes k + 1 requests and k back-offs. |
| Fetcher.FetchExhausted | onchain.py:22-36 | When every permitted attempt is transient, the result is `[]` after exactly `maxRetries` requests and back-offs. |
| Fetcher.FetchShape | onchain.py:22-36 | Any fetch makes at most `maxRetries` requests, backs off only after transient attempts, and ends early only on a decisive outcome. A non-empty page is the page of the last request. |
| Walker.WalkHistory | onchain.py:50-64 | The pagination loop returns the reference walk `Walk`: its transactions (at most `maxTransactions`) and the cursor of every request. |
| Walker.WalkFromTrace | onchain.py:53-60 | From any state reachable by the loop, the remaining walk extends the requests to a trace that has stopped, gathering exactly the pages of those requests. |
| Walker.WalkSpec | onchain.py:50-64 | The requests are a trace: the first has no cursor; each later one carries the txid of the last transaction of the previous, non-empty batch; each is issued while fewer than `maxTransactions` transactions are gathered. The walk stopped on an empty batch or at the cap. The result is the concatenation of the batches truncated to `maxTransactions`. |
| Walker.TraceIsUnique | onchain.py:51-60 | Any stopped trace is the request sequence of the walk, so the walk's requests are determined by the explorer's answers. |
| Walker.TracesAgree | onchain.py:51-60 | Two stopped traces that share a prefix are equal. |
| Walker.NotStoppedBeforeEnd | onchain.py:53-57 | A trace had not stopped before its last request. |
| Lex.LessIrreflexive | onchain.py:92 | No date string sorts before itself. |
| Lex.LessTransitive | onchain.py:92 | The string order is transitive. |
| Lex.LessTotal | onchain.py:101 | Two distinct date strings are ordered one way or the other. |
| Lex.LessAsymmetric | onchain.py:92 | The string order is asymmetric. |
| Lex.NotLessTransitive | onchain.py:92 | "Not after" is transitive. |
| Flows.SentAmount | onchain.py:68-71 | The input loop computes `Sent`: the sum of prevout values of inputs with a prevout whose address is the tracked one. |
| Flows.ReceivedAmount | onchain.py:73-76 | The output loop computes `Received`: the sum of the values of outputs paying the tracked address. |
| Flows.SentAppend | onchain.py:68-71 | `Sent` over a concatenation of inputs is the sum over the parts. |
| Flows.ReceivedAppend | onchain.py:73-76 | `Received` over a concatenation of outputs is the sum over the parts. |
| Flows.SentIgnoresOthers | onchain.py:69-70 | An input with no prevout, no address or another address contributes nothing to `sent`. |
| Flows.ReceivedIgnoresOthers | onchain.py:74-75 | An output without the tracked address contributes nothing to `received`. |
| Flows.DateUnconfirmedIff | onchain.py:78 | For a formatter that never yields the sentinel, the date is `"Unconfirmed"` exactly when the transaction has no block time; otherwise it is the formatted block time. |
| Flows.Flows | onchain.py:64-85 | One record per transaction, in transaction order, each holding that transaction's date, address, `sent` and `received`. |
| Flows.DateAsWritten | onchain.py:78 | As written, the date expression raises AttributeError exactly when the transaction has a block time. |
| Flows.ConfirmedTxRaisesAsWritten | onchain.py:78 | A single confirmed transaction raises as written, while the intended date is its formatted block time. |
| Flows.FlowExample | onchain.py:64-85 | A deposit address spending a 5 BTC input, with 1 BTC change, sent 5 BTC and received 1 BTC. |
| Summary.TotalOnBalanced | onchain.py:97-105 | Summed over any date, net equals sent minus received. |
| Summary.FrameShape | onchain.py:91 | The frame holds the records in order, each labelled with its position; the labels are distinct and below the length. |
| Summary.InsertPerm | onchain.py:92 | Inserting a row adds exactly that row. |
| Summary.InsertSorted | onchain.py:92 | Inserting into a date-sorted frame keeps it sorted. |
| Summary.SortByDate | onchain.py:92 | The sorted frame is in ascending date order and is a permutation of the frame. |
| Summary.SortSameRows | onchain.py:92 | Sorting keeps the same rows and the same length. |
| Summary.InsertTotal | onchain.py:92 | Inserting a row adds its amounts to the totals of its date. |
| Summary.InsertDates | onchain.py:92 | Inserting a row adds its date to the dates. |
| Summary.SortTotals | onchain.py:92 | Sorting changes neither the per-date totals nor the set of dates. |
| Summary.DropLabelMembers | onchain.py:96 | `drop(index=[i])` removes exactly the rows labelled `i`. |
| Summary.DropBelowMembers | onchain.py:94-96 | After the iterations for labels below `i`, exactly the unconfirmed rows with those labels are gone. |
| Summary.RemoveMembers | onchain.py:94-96 | After the loop, no unconfirmed row remains and every other row is kept. |
| Summary.DropStep | onchain.py:95-96 | An iteration that finds the sentinel under label `i` drops that label and nothing else. |
| Summary.KeepStep | onchain.py:95 | An iteration whose label `i` is confirmed changes nothing. |
| Summary.DropAll | onchain.py:94 | Once every label has been visited, the loop has dropped exactly the unconfirmed rows. |
| Summary.DropNone | onchain.py:94 | Before the first iteration, nothing is dropped. |
| Summary.Locate | onchain.py:95 | The lookup `loc[i]` finds a row with label `i` when one exists, and otherwise reports that none does. |
| Summary.DropUnconfirmed | onchain.py:94-96 | On a frame with distinct labels below its length, the label loop drops exactly the unconfirmed rows and keeps the order of the rest. |
| Summary.RemoveTotal | onchain.py:94-96 | Dropping the unconfirmed rows leaves the totals of every other date unchanged. |
| Summary.RemoveDates | onchain.py:94-96 | Dropping the unconfirmed rows removes the sentinel date and no other. |
| Summary.RemoveSorted | onchain.py:94-96 | The survivors stay in date order. |
| Summary.RemoveCount | onchain.py:94-96 | Each confirmed row survives as often as it occurred, and each unconfirmed row never. |
| Summary.RemovePerm | onchain.py:94-96 | Dropping from two permutations of one frame leaves two permutations. |
| Summary.NetOf | onchain.py:97 | A table row carries the record's label, date, address and amounts, with net = sent − received. |
| Summary.WithNet | onchain.py:97 | The net column keeps the rows and their order, adding net = sent − received to each. |
| Summary.WithNetTotals | onchain.py:97 | Adding the net column preserves the per-date sums and the set of dates. |
| Summary.AddToGroupAbove | onchain.py:101 | A key below both the summary and the new row stays below the grouped result. |
| Summary.AddToGroupAscending | onchain.py:101 | Grouping a row into a summary keeps its keys strictly ascending. |
| Summary.AddToGroupDates | onchain.py:101 | Grouping a row adds its date to the keys and no other. |
| Summary.AddToGroupTotal | onchain.py:101-105 | Grouping a row adds its amounts to the sums of its date, and to no other date. |
| Summary.GroupByDate | onchain.py:101-105 | The group-by has strictly ascending keys, exactly the table's dates, and per-date sums equal to the table's. |
| Summary.RowIsGroupTotal | onchain.py:101-105 | In an ascending summary, a row's amounts are the totals of its own date. |
| Summary.AbsentTotal | onchain.py:101-105 | A date below every key has no totals. |
| Summary.TableCorrect | onchain.py:91-99 | The table written to disk is sorted by date and is a permutation of the confirmed rows of the frame. Each row is a confirmed input record under its original label, and each table row adds net = sent − received to its record. |
| Summary.SummaryCorrect | onchain.py:91-105 | The daily summary has exactly one row per distinct confirmed date, in ascending order, and none for the sentinel. Each row's sent, received and net are the sums over the input records of that date, so its net is its sent minus its received. |
| Summary.SummarizeDaily | onchain.py:91-105 | Frame, sort, label loop, net column and group-by produce `Table` and `DailySummary` of the records. |
| Summary.SortAsWritten | onchain.py:91-92 | As written, sorting raises KeyError exactly when there are no records, and otherwise yields a date-sorted permutation of the frame. |
| Summary.NoRecordsRaisesAsWritten | onchain.py:91-92 | With no records, the sort raises as written, while the intended table and summary are empty. |
| Charts.Window | onchain.py:131 | The filter keeps exactly the points whose timestamp lies within the inclusive window, and never more points than it was given. |
| Charts.WindowAppend | onchain.py:131 | The filter works point by point: the window of a concatenation is the concatenation of the windows, so the original order is kept. |
| Charts.WindowIdempotent | onchain.py:131 | Filtering twice to the same window changes nothing. |
| Charts.WindowNarrower | onchain.py:131 | Filtering to a window and then to a narrower one is filtering to the narrower one. |
| Charts.FetchSeries | onchain.py:120-131 | A response without `values` gives an empty series; otherwise the result is exactly the points inside the window. The same code appears at onchain.py:157-168. |
| Pipeline.AddressFlows | onchain.py:88-89 | The records of one address number at most `max_transactions` (1000), and all carry that address. |
| Pipeline.AllFlowsShape | onchain.py:88-89 | Each address contributes at most 1000 records, and every record belongs to a listed address. |
| Pipeline.FlowTable.constructor | onchain.py:46 | The shared `data` list starts empty. |
| Pipeline.FlowTable.ProcessTransactions | onchain.py:48-85 | Appends to `data` exactly one record per transaction of the walk (truncated to the cap), in walk order, and changes nothing else. |
| Pipeline.LoadAddr | onchain.py:46-105 | Processing every address in list order, then summarizing, yields the table and the daily summary of all the addresses' records. |

## Left out

- HTTP requests, `raise_for_status`, JSON decoding and the `time.sleep` delays. They are the oracles `call` and `Network`. `BackoffSeconds` only names the delay, and the walker's 1-second pause is not modelled.
- Walker.WalkHistory: the explorer is keyed by cursor. A request with a cursor the walk has already used sees the same sequence of attempt outcomes again. A live explorer may answer differently.
- Walker.NextCursor: transaction ids are assumed non-empty. The source sends no cursor for an empty id, because line 19 tests the id for truthiness, whereas the model would request with `Some("")`. Explorer txids are 64 hex characters, so the cursor is always sent.
- Flows.DateOf: the `strftime` formatting in the local time zone is the parameter `fmt`. The model does not fix its format or its order.
- The satoshi-to-BTC division by `1e8` at lines 83-84, and the float arithmetic of the net column and the sums. Amounts are exact integers.
- Summary.SortByDate: pandas' default sort is not stable. The model uses insertion sort, one order among equal dates that pandas may produce. It does not cover every order pandas may produce.
- Reading `cex_address.csv` and writing `cex_transactions.csv`, `day_sum.csv` and the chart CSV files: file I/O. The address list is a parameter of `LoadAddr`.
- The merge of the chart frames at line 146, and the `allinone` merge: pandas library calls on files.
- `MVRV()`: browser automation and filesystem moves.
- Charts.FetchSeries: the window ends come from `datetime.now()`; they are parameters here. The model also does not capture that `to_datetime(unit="s")` yields UTC while `now()` is local time.
- The chart timestamp conversion itself: points carry epoch seconds and the bounds microseconds, and the two are compared after scaling.

## Findings

| source | as written | input that shows it | evidently intended | confidence | as-written member | corrected member |
|---|---|---|---|---|---|---|
| onchain.py:78 | line 5 binds `datetime` to the class, so the attribute lookup `datetime.datetime` raises AttributeError for every confirmed transaction | one transaction with a block time, e.g. 1700000000 | the date is the formatted block time | not executed | Flows.ConfirmedTxRaisesAsWritten | Flows.DateUnconfirmedIff |
| onchain.py:91-92 | when `data` is empty the frame has no `date` column, so `sort_values(by='date')` raises KeyError | every address returns an empty history (or every fetch fails) | an empty table and an empty daily summary | not executed | Summary.NoRecordsRaisesAsWritten | Summary.SummaryCorrect |

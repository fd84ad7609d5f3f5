/** `load_addr`: for every exchange address, walk its history and append one
    flow record per transaction to the shared `data` list, then summarize
    the list. */
module Pipeline {
  import opened Chain
  import opened Walker
  import opened Flows
  import opened Summary

  /** The records of one address: one per transaction of its walk. */
  function AddressFlows(address: string, net: Network, fmt: int -> string): (r: seq<FlowRecord>)
    ensures |r| <= DefaultMaxTransactions
    ensures forall k :: 0 <= k < |r| ==> r[k].address == address
  {
    WalkSpec(net, DefaultMaxTransactions);
    Flows.Flows(Walk(net, DefaultMaxTransactions).txs, address, fmt)
  }

  /** The records of all addresses, address after address, in list order;
      `nets(a)` is the explorer as seen for address `a`. */
  function AllFlows(addresses: seq<string>, nets: string -> Network, fmt: int -> string): seq<FlowRecord>
  {
    if addresses == [] then []
    else
      var a := addresses[|addresses| - 1];
      AllFlows(addresses[..|addresses| - 1], nets, fmt) + AddressFlows(a, nets(a), fmt)
  }

  /** Each address contributes at most `max_transactions` records, and every
      record is for one of the listed addresses. */
  lemma {:induction false} AllFlowsShape(addresses: seq<string>, nets: string -> Network, fmt: int -> string)
    ensures |AllFlows(addresses, nets, fmt)| <= DefaultMaxTransactions * |addresses|
    ensures forall r :: r in AllFlows(addresses, nets, fmt) ==> r.address in addresses
  {
    if addresses != [] {
      var init := addresses[..|addresses| - 1];
      var a := addresses[|addresses| - 1];
      var last := AddressFlows(a, nets(a), fmt);
      AllFlowsShape(init, nets, fmt);
      forall r | r in AllFlows(addresses, nets, fmt)
        ensures r.address in addresses
      {
        if r in last {
          var k :| 0 <= k < |last| && last[k] == r;
        } else {
          assert r in AllFlows(init, nets, fmt);
          assert r.address in init;
        }
      }
    }
  }

  /** The shared `data` list of `load_addr`. */
  class FlowTable {
    var data: seq<FlowRecord>

    constructor()
      ensures data == []
    {
      data := [];
    }

    /** `process_transactions`: walk the address's history, then append one
        record per kept transaction, in walk order. */
    method ProcessTransactions(address: string, net: Network, maxTransactions: nat, fmt: int -> string)
      modifies this
      ensures data == old(data) + Flows.Flows(Walk(net, maxTransactions).txs, address, fmt)
    {
      var txs, requests := WalkHistory(net, maxTransactions);
      for i := 0 to |txs|
        invariant data == old(data) + Flows.Flows(txs[..i], address, fmt)
      {
        var tx := txs[i];
        var sent := SentAmount(tx, address);
        var received := ReceivedAmount(tx, address);
        var date := if tx.blockTime.Some? then fmt(tx.blockTime.value) else Unconfirmed;
        assert FlowRecord(date, address, sent, received) == Record(tx, address, fmt);
        data := data + [FlowRecord(date, address, sent, received)];
        assert txs[..i + 1][..i] == txs[..i];
        assert Flows.Flows(txs[..i + 1], address, fmt) == Flows.Flows(txs[..i], address, fmt) + [Record(tx, address, fmt)];
      }
      assert txs[..|txs|] == txs;
    }
  }

  /** `load_addr` after reading the address list: process every address
      with the default cap, then build the table and the daily summary. */
  method LoadAddr(addresses: seq<string>, nets: string -> Network, fmt: int -> string)
    returns (table: seq<NetRow>, summary: seq<DailyRow>)
    ensures table == Table(AllFlows(addresses, nets, fmt))
    ensures summary == DailySummary(AllFlows(addresses, nets, fmt))
  {
    var flows := new FlowTable();
    for i := 0 to |addresses|
      invariant flows.data == AllFlows(addresses[..i], nets, fmt)
    {
      var a := addresses[i];
      flows.ProcessTransactions(a, nets(a), DefaultMaxTransactions, fmt);
      assert addresses[..i + 1][..i] == addresses[..i];
    }
    assert addresses[..|addresses|] == addresses;
    table, summary := SummarizeDaily(flows.data);
  }
}

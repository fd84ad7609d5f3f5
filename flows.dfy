/** The per-transaction part of `process_transactions`: how much a tracked
    address sent and received in one transaction, and the record kept for it. */
module Flows {
  import opened Chain

  /** The date of a transaction that has no block time. */
  const Unconfirmed: string := "Unconfirmed"

  /** One row of the shared `data` list (amounts in satoshis). */
  datatype FlowRecord = FlowRecord(date: string, address: string, sent: nat, received: nat)

  /** An input spends an output owned by `address`: it has a prevout, the
      prevout has an address, and that address is the tracked one. */
  predicate SpentBy(v: Vin, address: string)
  {
    v.prevout.Some? && v.prevout.value.address == Some(address)
  }

  /** An output pays `address`. */
  predicate PaidTo(v: Vout, address: string)
  {
    v.address == Some(address)
  }

  /** The sum of the prevout values of the inputs spent by `address`. */
  function Sent(vins: seq<Vin>, address: string): nat
  {
    if vins == [] then 0
    else
      var v := vins[|vins| - 1];
      Sent(vins[..|vins| - 1], address) + (if SpentBy(v, address) then v.prevout.value.value else 0)
  }

  /** The sum of the values of the outputs paying `address`. */
  function Received(vouts: seq<Vout>, address: string): nat
  {
    if vouts == [] then 0
    else
      var v := vouts[|vouts| - 1];
      Received(vouts[..|vouts| - 1], address) + (if PaidTo(v, address) then v.value else 0)
  }

  lemma {:induction false} SentAppend(a: seq<Vin>, b: seq<Vin>, address: string)
    ensures Sent(a + b, address) == Sent(a, address) + Sent(b, address)
    decreases |b|
  {
    if b == [] {
      assert a + b == a;
    } else {
      assert (a + b)[..|a + b| - 1] == a + b[..|b| - 1];
      SentAppend(a, b[..|b| - 1], address);
    }
  }

  lemma {:induction false} ReceivedAppend(a: seq<Vout>, b: seq<Vout>, address: string)
    ensures Received(a + b, address) == Received(a, address) + Received(b, address)
    decreases |b|
  {
    if b == [] {
      assert a + b == a;
    } else {
      assert (a + b)[..|a + b| - 1] == a + b[..|b| - 1];
      ReceivedAppend(a, b[..|b| - 1], address);
    }
  }

  /** An input the address did not spend (no prevout, no address, or
      another address) contributes nothing to `sent`. */
  lemma SentIgnoresOthers(a: seq<Vin>, v: Vin, b: seq<Vin>, address: string)
    requires !SpentBy(v, address)
    ensures Sent(a + [v] + b, address) == Sent(a + b, address)
  {
    SentAppend(a + [v], b, address);
    SentAppend(a, [v], address);
    SentAppend(a, b, address);
    assert Sent([v], address) == 0 by { assert [v][..0] == []; }
  }

  /** An output that does not pay the address contributes nothing to
      `received`. */
  lemma ReceivedIgnoresOthers(a: seq<Vout>, v: Vout, b: seq<Vout>, address: string)
    requires !PaidTo(v, address)
    ensures Received(a + [v] + b, address) == Received(a + b, address)
  {
    ReceivedAppend(a + [v], b, address);
    ReceivedAppend(a, [v], address);
    ReceivedAppend(a, b, address);
    assert Received([v], address) == 0 by { assert [v][..0] == []; }
  }

  /** The loop over `tx['vin']`. */
  method SentAmount(tx: Tx, address: string) returns (sent: nat)
    ensures sent == Sent(tx.vin, address)
  {
    sent := 0;
    for i := 0 to |tx.vin|
      invariant sent == Sent(tx.vin[..i], address)
    {
      var v := tx.vin[i];
      if v.prevout.Some? && v.prevout.value.address.Some? {
        if v.prevout.value.address.value == address {
          sent := sent + v.prevout.value.value;
        }
      }
      assert tx.vin[..i + 1][..i] == tx.vin[..i];
    }
    assert tx.vin[..|tx.vin|] == tx.vin;
  }

  /** The loop over `tx['vout']`. */
  method ReceivedAmount(tx: Tx, address: string) returns (received: nat)
    ensures received == Received(tx.vout, address)
  {
    received := 0;
    for i := 0 to |tx.vout|
      invariant received == Received(tx.vout[..i], address)
    {
      var v := tx.vout[i];
      if v.address.Some? {
        if v.address.value == address {
          received := received + v.value;
        }
      }
      assert tx.vout[..i + 1][..i] == tx.vout[..i];
    }
    assert tx.vout[..|tx.vout|] == tx.vout;
  }

  /** A formatter never produces the sentinel (the real one yields
      "YYYY-MM-DD HH:MM:SS"). */
  ghost predicate NeverUnconfirmed(fmt: int -> string)
  {
    forall t :: fmt(t) != Unconfirmed
  }

  /** The date column: the formatted block time, or the sentinel. `fmt`
      stands for `fromtimestamp(..).strftime('%Y-%m-%d %H:%M:%S')`, which
      depends on the local time zone. */
  function DateOf(tx: Tx, fmt: int -> string): string
  {
    if tx.blockTime.Some? then fmt(tx.blockTime.value) else Unconfirmed
  }

  /** The date is the sentinel exactly when the transaction has no block
      time, and otherwise it is the formatted block time. */
  lemma DateUnconfirmedIff(tx: Tx, fmt: int -> string)
    requires NeverUnconfirmed(fmt)
    ensures DateOf(tx, fmt) == Unconfirmed <==> tx.blockTime.None?
    ensures tx.blockTime.Some? ==> DateOf(tx, fmt) == fmt(tx.blockTime.value)
  {
    if tx.blockTime.Some? {
      var t := tx.blockTime.value;
      assert fmt(t) != Unconfirmed;
    }
  }

  /** The record appended for one transaction. */
  function Record(tx: Tx, address: string, fmt: int -> string): FlowRecord
  {
    FlowRecord(DateOf(tx, fmt), address, Sent(tx.vin, address), Received(tx.vout, address))
  }

  /** The records appended for `txs`: exactly one per transaction, in
      transaction order, each for the tracked address. */
  function Flows(txs: seq<Tx>, address: string, fmt: int -> string): (r: seq<FlowRecord>)
    ensures |r| == |txs|
    ensures forall i :: 0 <= i < |txs| ==> r[i] == Record(txs[i], address, fmt)
  {
    if txs == [] then []
    else Flows(txs[..|txs| - 1], address, fmt) + [Record(txs[|txs| - 1], address, fmt)]
  }

  /** What line 78 evaluates to as written: `datetime` names the class
      (imported at line 5), so `datetime.datetime` raises AttributeError
      whenever the transaction has a block time. */
  datatype Evaluated<T> = Value(value: T) | AttributeError

  function DateAsWritten(tx: Tx): (r: Evaluated<string>)
    ensures r.AttributeError? <==> tx.blockTime.Some?
    ensures r.Value? ==> r.value == Unconfirmed
  {
    if tx.blockTime.Some? then AttributeError else Value(Unconfirmed)
  }

  /** Witness: a single confirmed transaction stops `process_transactions`
      as written, while the intended date is its formatted block time. */
  lemma ConfirmedTxRaisesAsWritten(fmt: int -> string)
    ensures var tx := Tx("a", [], [], Some(1700000000));
      DateAsWritten(tx) == AttributeError && DateOf(tx, fmt) == fmt(1700000000)
  {
  }

  /** The worked example of a deposit address A: one input of 5 BTC spent by
      A, outputs of 4 BTC to B and 1 BTC back to A; A sent 5 BTC and
      received 1 BTC, a net outflow of 4 BTC. */
  lemma FlowExample()
    ensures var tx := Tx("t",
                         [Vin(Some(Prevout(Some("A"), 500000000)))],
                         [Vout(Some("B"), 400000000), Vout(Some("A"), 100000000)],
                         None);
      var r := Record(tx, "A", t => "");
      r.sent == 500000000 && r.received == 100000000 && r.sent - r.received == 400000000
  {
    var vins := [Vin(Some(Prevout(Some("A"), 500000000)))];
    var vouts := [Vout(Some("B"), 400000000), Vout(Some("A"), 100000000)];
    assert vins[..0] == [];
    assert Sent(vins, "A") == 500000000;
    assert vouts[..1] == [Vout(Some("B"), 400000000)];
    assert vouts[..1][..0] == [];
    assert Received(vouts[..1], "A") == 0;
    assert Received(vouts, "A") == 100000000;
  }
}

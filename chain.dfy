/** The transaction records returned by the explorer's address-transaction
    endpoint, reduced to the fields the flow analysis reads. Amounts are in
    satoshis. */
module Chain {

  datatype Option<T> = None | Some(value: T)

  /** The output an input spends: its owning address (absent for scripts
      without one) and its value. */
  datatype Prevout = Prevout(address: Option<string>, value: nat)

  /** A transaction input; `prevout` is absent (null) for coinbase inputs. */
  datatype Vin = Vin(prevout: Option<Prevout>)

  /** A transaction output with its owning address, if any, and its value. */
  datatype Vout = Vout(address: Option<string>, value: nat)

  /** A transaction; `blockTime` is the confirmation time in epoch seconds,
      absent while the transaction is unconfirmed. */
  datatype Tx = Tx(txid: string, vin: seq<Vin>, vout: seq<Vout>, blockTime: Option<int>)
}

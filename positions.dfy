/**
 * The records the position checker works with: what the exchange reports for a
 * position, the threshold parameters stored with the originating order, the
 * store lookups the cache relies on, and the status names of the lifecycle.
 */
module Positions {

  type OrderId = string
  type TxId = string
  type AccountId = string

  /** One position as the exchange reports it (`position['data']`). */
  datatype RawPosition = RawPosition(symbol: string, side: string, size: real)

  /** The `params` of the originating order: the price levels of the lifecycle. */
  datatype OrderParams = OrderParams(
    stopLoss: real, point13: real, point23: real,
    point38: real, point61: real, takeProfit3: real)

  /** The most recent transaction recorded for a symbol. */
  datatype Transaction = Transaction(id: TxId, orderId: OrderId, accountId: AccountId)

  datatype Account = Account(accountNumber: int, lastTransactionNumber: int)

  /**
   * The persisted state the core reads. `recent` is keyed by symbol and holds the
   * most recent transaction of the one tracked account; `closing` is the set of
   * transactions whose "already closing" flag is set.
   */
  datatype Store = Store(
    recent: map<string, Transaction>,
    orders: map<OrderId, OrderParams>,
    accounts: map<AccountId, Account>,
    closing: set<TxId>)

  /** The exceptions a cache rebuild can raise from a failed store lookup. */
  datatype Error =
    | MissingTransaction(symbol: string)
    | MissingOrder(orderId: OrderId)
    | MissingAccount(accountId: AccountId)

  // Status names written by the lifecycle evaluator.
  const OPEN := "OPEN"
  const PROTECCION_13 := "PROTECCION_13"
  const PROTECCION_23 := "PROTECCION_23"
  const CLOSED_STOPLOSS := "CLOSED_STOPLOSS"
  const CLOSED_PROTECCION_13 := "CLOSED_PROTECCION_13"
  const CLOSED_PROTECCION_23 := "CLOSED_PROTECCION_23"
  const CLOSED_TP3 := "CLOSED_TP3"

  /** The statuses the cache drops on a rebuild (none of them is written by the evaluator). */
  const EVICTED_STATUSES: seq<string> := ["C_SL", "C_13", "C_23", "C_TP3"]

  /** The statuses the evaluator acts on. */
  predicate IsLive(status: string) {
    status == OPEN || status == PROTECCION_13 || status == PROTECCION_23
  }

  /** The statuses the evaluator writes when it decides to close. */
  predicate IsClosed(status: string) {
    status == CLOSED_STOPLOSS || status == CLOSED_PROTECCION_13
    || status == CLOSED_PROTECCION_23 || status == CLOSED_TP3
  }

  predicate IsEvicted(status: string) {
    status in EVICTED_STATUSES
  }
}

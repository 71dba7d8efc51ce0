/** Optional values, and the errors a call can return instead of a value. */
module Outcome {

  datatype Option<+T> = None | Some(value: T)

  /** The error values of the packages domain, usecase and postgres that the model distinguishes. */
  datatype Error =
    | InvalidCurrencyFormat
    | InvalidAmount
    | NegativeAmount
    | CurrencyMismatch
    | ArithmeticOverflow
    | UninitializedMoney
    | InsufficientFunds
    | InvalidDebit
    | InvalidCredit
    | InvalidWalletId
    | InvalidPlayerId
    | InvalidWalletState
    | NegativeInitialBalance
    | InvalidTimestamp
    | InvalidTransactionId
    | InvalidTransactionAmount
    | InvalidTransactionRecord
    | InvalidExternalKind
    | TransactionTerminal
    | MissingExternalMetadata
    | MissingReference
    | MissingFailureCode
    | ReferenceNotApplicable
    | ReferenceAlreadyResolved
    | UnresolvedReference
    | UnreversibleReference
    | InvalidCommand
    | PayloadConflict
    | MessageConflict
    | ConcurrentUpdate
    | WalletAlreadyExists
    | WalletNotFound
    | TransactionNotFound
    | LedgerBalanceMismatch
    | InvalidLedgerAmount
    | EmptyPayload
    | InvalidPayload
    | PayloadNotObject
    | NoBusinessFields
    | NegativeLedgerBalance
    /** A CHECK, foreign key or trigger of the schema refused the statement. */
    | SchemaViolation

  datatype Result<+T> = Ok(value: T) | Err(error: Error)

  function Get<K, V>(m: map<K, V>, k: K): (r: Option<V>)
    ensures r.Some? <==> k in m
    ensures r.Some? ==> r.value == m[k]
  {
    if k in m then Some(m[k]) else None
  }
}

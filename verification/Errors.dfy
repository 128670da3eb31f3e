// The errors that requests end with.
module Errors {
  import opened Wrappers

  /** The error codes that reach a caller. */
  datatype Code =
    | MissingField | InvalidAmount | AmountBelowMinimum | InsufficientBalance | SelfTransfer | UserNotFound
    | ExceedsTransactionLimit | RequestInFlight | SerializationConflict | Internal
    | InvalidVA | DuplicateRequest | BankTimeout | BankRejection

  /** An error chain: the domain error and the PostgreSQL code found in it, if any, and its text. */
  datatype Error = Error(domain: Option<Code>, sqlState: Option<string>, text: string)
}

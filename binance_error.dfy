/**
 * Error normalisation (src/core/errors/BinanceError.ts): any thrown value
 * becomes a `BinanceError`, keeping the message of an `Error` and the
 * original value.
 */
module BinanceErrors {
  import opened Wrappers

  /** The name every `BinanceError` carries. */
  const BinanceErrorName: string := "BinanceError"

  /** The message used when the thrown value is not an `Error`. */
  const UnknownErrorMessage: string := "Unknown error occurred"

  /**
   * A thrown value, by the only distinctions `from` makes: a `BinanceError`,
   * another `Error` (with its message), or anything else.
   */
  datatype Unknown = BErr(error: BinanceError) | Err(message: string) | Other(description: string)

  /** A `BinanceError`: name, message and the value it was made from, if any. */
  datatype BinanceError = BinanceError(name: string, message: string, originalError: Option<Unknown>)

  /** An error as the constructor leaves it: named `BinanceError`. */
  predicate IsWellFormed(e: BinanceError)
  {
    e.name == BinanceErrorName
  }

  /** `new BinanceError(message, originalError)`. */
  function NewBinanceError(message: string, originalError: Option<Unknown>): (e: BinanceError)
    ensures IsWellFormed(e)
    ensures e.message == message && e.originalError == originalError
  {
    BinanceError(BinanceErrorName, message, originalError)
  }

  /**
   * `BinanceError.from(error)`: a `BinanceError` is returned unchanged;
   * anything else is wrapped, with the message of an `Error` or the generic
   * message, and the input kept as the original error.
   */
  function From(error: Unknown): (e: BinanceError)
    ensures error.BErr? ==> e == error.error
    ensures error.Err? ==> IsWellFormed(e) && e.message == error.message && e.originalError == Some(error)
    ensures error.Other? ==> IsWellFormed(e) && e.message == UnknownErrorMessage && e.originalError == Some(error)
  {
    match error
    case BErr(b) => b
    case Err(message) => NewBinanceError(message, Some(error))
    case Other(_) => NewBinanceError(UnknownErrorMessage, Some(error))
  }

  /** `from` always yields a well-formed error when given one, and is idempotent. */
  lemma FromIdempotent(error: Unknown)
    requires error.BErr? ==> IsWellFormed(error.error)
    ensures IsWellFormed(From(error))
    ensures From(BErr(From(error))) == From(error)
  {
  }
}

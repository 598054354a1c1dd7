/** The exceptions the core raises, as values. */
module Outcomes {

  datatype Error =
    | EmptyDeck                    // `draw` on an empty deck
    | CardNotFound(value: int)     // `get_card` on a value that is no card's bit
    | EmptyReduce                  // `functools.reduce` with no initial value on an empty list
    | CacheMiss(key: int)          // `KeyError` from the value cache
    | EmptyMax                     // `max()` of an empty sequence
    | TooManyPlayers(count: int)   // a simulation with more than 22 players
    | NoSuchHandRank(ordinal: int) // `HandRank(n)` for an `n` outside 0..9
    | AssertionFailed              // an `assert` statement fails
    | IndexOutOfRange              // `IndexError` from a list subscript

  datatype Result<T> = Ok(value: T) | Err(error: Error)

  /** Python's `X | None`. */
  datatype Option<T> = None | Some(value: T)
}

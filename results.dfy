/** Python's exceptions, as far as the modelled code can raise them, and a
    failure-compatible Result type that carries them. */
module Results {

  /** The ways a call into the hand evaluator, the equity estimator or the
      position helper can end with an exception. */
  datatype Error =
    /** `ValueError("Invalid card string: ...")`: an unknown rank or suit character. */
    | InvalidCardString(token: string)
    /** `IndexError`: a token shorter than two characters, or a rank nibble of 13..15
        looked up in the rank character table. */
    | IndexOutOfRange
    /** `ValueError("Expected n cards, got m")` from the 5- and 7-card evaluators. */
    | WrongCardCount(expected: nat, got: nat)
    /** `ValueError("my_hand must be exactly 5 cards")` and its 7-card twin. */
    | HeroHandSize(expected: nat)
    /** `ValueError("Each opponent hand must be exactly 7 cards")`. */
    | OpponentHandSize
    /** `UnboundLocalError`: an opponent rank read before any was computed. */
    | UnboundOpponentRank
    /** `ZeroDivisionError` from dividing by the number of simulations. */
    | ZeroDivision
    /** `ValueError("n is not a valid Preflop_Position")`. */
    | InvalidPosition(value: int)

  datatype Result<+T> = Ok(value: T) | Err(error: Error) {
    predicate IsFailure() { Err? }

    function PropagateFailure<U>(): Result<U>
      requires Err?
    {
      Err(error)
    }

    function Extract(): T
      requires Ok?
    {
      value
    }
  }

  datatype Option<+T> = None | Some(value: T)
}

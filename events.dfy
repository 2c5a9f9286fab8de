/**
  What the two engines write and how a run ends. Writes to `std::cout` and
  `std::cerr` are kept as an append-only log instead of being performed.
 */
module Events {

  /** The reports written to the error stream. */
  datatype Error =
    | NotEnoughValues        // "Error: not enough values on the stack!"
    | StackEmpty             // "Error: stack is empty!" (IF)
    | ElseWithoutIf          // "Error: ELSE without an IF"
    | ThenWithoutIf          // "Error: THEN without an IF"
    | UnknownWord(word: string)  // "Unknown word [<word>]!"

  /** One write: a value printed by `.`, or a report on the error stream. */
  datatype Output = Printed(value: int) | Reported(error: Error)

  /**
    How a run ended. `Normal` is the only outcome the source defines; the
    others stop the run where the source leaves defined behaviour:
    `UndefinedBehaviour` (signed overflow, a zero divisor), `OutOfRange`
    (`std::stoi` throws `std::out_of_range`, which nothing catches),
    `DepthExhausted` (the bound on nested user-word invocations, which stands
    in for the host's call stack) and `Unmodelled` (NEGATE and NOT, whose
    `unaryOperator` is not part of this model).
   */
  datatype Status = Normal | UndefinedBehaviour | OutOfRange | DepthExhausted | Unmodelled
}

/** Errors the interpreter raises, and the wrappers that carry them. */
module Results {

  /** Every way a generation request can fail. All of them abort the whole run. */
  datatype Error =
    | UnknownRule(rule: string)        // `self.rules[ruleName]` raises KeyError
    | WrongArity(rule: string)         // "rule ... wrong number of arguments"
    | UnboundVariable(variable: string) // "variable ... not defined"
    | DivisionByZero                   // Python float division raises ZeroDivisionError
    | EmptyStack                       // `list.pop()` on an empty branch stack raises IndexError
    | MissingRootBranch                // the root fix-up reads `vertices[1]`, which may not exist
    | OutOfFuel                        // rule calls nested deeper than the fuel bound

  datatype Option<+T> = None | Some(value: T)

  datatype Result<+T> = Ok(value: T) | Err(error: Error)

  /** What a state-changing method reports: it finished, or it raised. */
  datatype Outcome = Pass | Fail(error: Error)

  /** The outcome that a result stands for, forgetting the value it carries. */
  function OutcomeOf<T>(r: Result<T>): Outcome
  {
    match r
    case Ok(_) => Pass
    case Err(e) => Fail(e)
  }
}

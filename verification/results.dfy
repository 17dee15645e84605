/** Outcomes of the pipeline's operations: a value, or the kind of exception
    the Python code raises instead of returning one. */
module Results {

  /** One constructor per error condition the modelled code can hit. */
  datatype Fault =
    | ZeroDivision                  // `T / n_steps` with `n_steps == 0`
    | NegativeDimension             // an array shape with a negative extent
    | IndexOutOfRange               // writing position 0 of an empty axis
    | InvalidSeed                   // a generator seed outside [0, 2^32)
    | QuantileOutOfRange            // a quantile level outside [0, 1]
    | NotPositive(name: string)     // `check_positive` on a value <= 0
    | NotProbability(name: string)  // `check_probability` outside [0, 1]
    | EmptyInput(name: string)      // a validator given an empty series or frame

  /** A computed value, or the fault raised in its place. */
  datatype Result<+T> = Ok(value: T) | Err(fault: Fault)

  /** The result of a check that returns nothing when it passes. */
  datatype Outcome = Pass | Fail(fault: Fault)
}

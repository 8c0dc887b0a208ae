/** Failure-carrying values shared by the calculators. */
module Outcomes {

  /** The conditions under which a calculation raises instead of returning. */
  datatype CalcError =
    | NegativeSalary   // a calculator was given a salary below zero
    | DivisionByZero   // the retention rate of a zero gross salary

  /** A calculation either yields a value or fails with a `CalcError`. */
  datatype Result<+T> = Ok(value: T) | Err(error: CalcError)

  /** An argument the caller may leave out. */
  datatype Option<+T> = None | Some(value: T)
}

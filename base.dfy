/** Values shared by the models of connectz.py and collectz.py. Python's
    exceptions become error values: an operation that may raise returns a
    Result, one that returns nothing or raises returns a Status. */
module Base {

  datatype Option<+T> = None | Some(value: T)

  /** The four exception classes that both game files declare. */
  datatype Error = IllegalColumnError | IllegalRowError | InvalidFileError | IllegalGameError

  datatype Result<+T> = Ok(value: T) | Err(error: Error)

  /** The outcome of a call that either returns None or raises. */
  datatype Status = Done | Raised(error: Error)

  function Max(a: int, b: int): int { if a >= b then a else b }

  function Min(a: int, b: int): int { if a <= b then a else b }
}

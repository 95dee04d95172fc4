module Wrappers {
  datatype Option<+T> = None | Some(value: T)

  datatype Result<+T, +E> = Ok(value: T) | Err(error: E)

  /** Something only the environment decides, and grants when nothing goes wrong. */
  method Attempt(steady: bool) returns (ok: bool)
    ensures steady ==> ok
  {
    ok := *;
    if steady {
      ok := true;
    }
  }
}

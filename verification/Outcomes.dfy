/** Results shared by every model: optional values, and the three ways a step of a process can end. */
module Outcomes {

  datatype Option<+T> = None | Some(value: T)

  /** A Python call either returns, raises an ordinary exception, or never returns because the
      process died. Handlers see `Raised`; nothing in the process sees `Crashed`. */
  datatype Outcome<+T> = Done(value: T) | Raised | Crashed {
    predicate IsFailure() {
      !Done?
    }

    function PropagateFailure<U>(): Outcome<U>
      requires IsFailure()
    {
      if Raised? then Raised else Crashed
    }

    function Extract(): T
      requires Done?
    {
      value
    }
  }

  /** A checked computation of the pure parts of the code: a value, or a rejection. */
  datatype Checked<+T> = Accepted(value: T) | Rejected {
    predicate IsFailure() {
      Rejected?
    }

    function PropagateFailure<U>(): Checked<U>
      requires Rejected?
    {
      Rejected
    }

    function Extract(): T
      requires Accepted?
    {
      value
    }
  }

  /** The environment decides how a step ends. */
  method Fate() returns (r: Outcome<()>)
    ensures r == Done(()) || r == Raised || r == Crashed
  {
    var ending: int := *;
    r := if ending == 0 then Done(()) else if ending == 1 then Raised else Crashed;
  }
}

/** What one step of a controller can end in, and small vocabulary shared by all controllers. */
module Outcomes {

  datatype Option<+T> = None | Some(value: T)

  /** A step passes, is refused with a fixed code, or the process is killed while it runs.
      A refusal unwinds the controller like an exception does; after a kill no further code runs. */
  datatype Outcome<+C> = Pass | Refused(code: C) | Killed {

    predicate IsFailure() {
      !Pass?
    }

    function PropagateFailure(): Outcome<C>
      requires IsFailure()
    {
      this
    }
  }

  /** The first of two checks that does not pass decides. */
  function Then<C>(first: Outcome<C>, second: Outcome<C>): Outcome<C> {
    if first.Pass? then second else first
  }

  function Require<C>(condition: bool, code: C): Outcome<C> {
    if condition then Pass else Refused(code)
  }
}

/** Shared vocabulary: optional values, failure-compatible results, identifiers and instants. */
module Base {

  datatype Option<+T> = None | Some(value: T)

  datatype Result<+T, +E> = Ok(value: T) | Err(error: E) {
    predicate IsFailure() { Err? }

    function PropagateFailure<U>(): Result<U, E>
      requires Err?
    {
      Err(error)
    }

    function Extract(): T
      requires Ok?
    {
      value
    }
  }

  datatype Outcome<+E> = Pass | Fail(error: E) {
    predicate IsFailure() { Fail? }

    function PropagateFailure<U>(): Result<U, E>
      requires Fail?
    {
      Err(error)
    }
  }

  function Need<E>(condition: bool, error: E): Outcome<E> {
    if condition then Pass else Fail(error)
  }

  /** Nanoseconds since the epoch; wall clocks may run backwards, so no order between readings is assumed. */
  type Instant = int

  const NANOS_PER_SECOND: int := 1_000_000_000
  const NANOS_PER_MINUTE: int := 60 * NANOS_PER_SECOND

  /** Whole microseconds since the epoch, rounded down, without its sign. */
  function UnsignedMicros(at: Instant): nat {
    var micros := at / 1000;
    if micros < 0 then -micros else micros
  }

  type TaskId = nat
  type BindingId = nat
  type ApprovalId = nat
  type MonitorId = nat
  type RunId = nat
  type HandlerId = nat
  type CheckpointId = nat
  type Sha = string

  /** The text of an identifier, as it appears in branch names and paths. */
  function IdText(id: nat): string {
    if id < 10 then ["0123456789"[id]] else IdText(id / 10) + ["0123456789"[id % 10]]
  }

  function Last<T>(s: seq<T>): T
    requires s != []
  {
    s[|s| - 1]
  }
}

/** Status and command codes of the generic command thread, and the error
    kinds its operations raise.

    The numeric values of the base codes live in ThreadUtils.h, which is not
    part of this model; any pairwise-distinct values serve, and extensions
    start at MaxThreadStatus and MaxThreadCmd. */
module ThreadCodes {

  // Base statuses of a command thread.
  const InInit: int := 0
  const Stopped: int := 1
  const Finished: int := 2
  /** First status value free for a subclass. */
  const MaxThreadStatus: int := 3

  // Base commands; None is the idle value of the command slot.
  const None: int := 0
  const Init: int := 1
  const Stop: int := 2
  const Abort: int := 3
  /** First command value free for a subclass. */
  const MaxThreadCmd: int := 4

  /** The exception kinds the engine throws (LIMA_COM_EXC / LIMA_HW_EXC). */
  datatype ErrorKind = Error | InvalidValue

  /** Result of an operation that returns nothing or throws. */
  datatype Outcome = Pass | Fail(error: ErrorKind)

  /** Result of an operation that returns a value or throws. */
  datatype Result<T> = Ok(value: T) | Failure(error: ErrorKind)
}

/** Client code: what callers of a command thread can rely on from the
    contracts of its methods alone. */
module Scenarios {
  import opened ThreadCodes
  import opened CmdEngine
  import opened ThreadUtils

  /** A second start is refused and leaves the running worker alone. */
  method RestartRefused() returns (first: Outcome, second: Outcome, pending: int)
    ensures first == Pass && second == Fail(InvalidValue)
    ensures pending == Init
  {
    var t := new CmdThread();
    first := t.Start(true);
    second := t.Start(true);
    pending := t.cmd;
  }

  /** An abort issued before the worker has taken Init overwrites it, so the
      worker never runs the init hook: it takes only Abort and finishes. */
  method AbortBeforeInit(h: Hooks) returns (exit: Exit, taken: seq<int>, finished: bool)
    ensures exit == Done && taken == [Abort] && finished
  {
    var t := new CmdThread();
    var r := t.Start(true);
    var sent := t.Abort();
    var used;
    exit, used, taken := t.RunWorker([], h);
    finished := t.worker.finished;
  }

  /** Once the worker has finished, abort sends nothing, however often it is
      called. */
  method AbortAfterFinish(h: Hooks) returns (again: bool, twice: bool)
    ensures !again && !twice
  {
    var t := new CmdThread();
    var r := t.Start(true);
    var sent := t.Abort();
    var exit, used, taken := t.RunWorker([], h);
    again := t.Abort();
    twice := t.Abort();
  }
}

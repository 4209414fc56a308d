/** The command values the simulated detector's worker adds to the generic
    command thread. Only these codes are modelled; the acquisition loop
    itself is not part of this model. */
module Simulator {
  import opened ThreadCodes
  import opened CmdEngine

  // Commands of the simulator's worker, numbered from MaxThreadCmd on.
  const StartAcq: int := MaxThreadCmd
  const StopAcq: int := MaxThreadCmd + 1

  /** The acquisition commands clash with no base command, so cmdLoop hands
      them to execCmd. */
  lemma ExtensionsAreFresh()
    ensures !IsBaseCmd(StartAcq) && !IsBaseCmd(StopAcq)
  {
  }

  /** StartAcq and StopAcq go to the execCmd hook and to nothing else. */
  lemma AcquisitionCommandsReachExecCmd(m: Monitor, h: Hooks)
    ensures Dispatch(m, StartAcq, h) == AfterHook(m, h.exec(StartAcq, m.status))
    ensures Dispatch(m, StopAcq, h) == AfterHook(m, h.exec(StopAcq, m.status))
  {
  }
}

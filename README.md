# Command-thread engine of LImA's ThreadUtils, in Dafny

LImA (Library for Image Acquisition) drives each hardware device from a background
**command thread**. A command thread has three parts:

- a status register (`m_status`), which starts at `InInit`;
- a single-slot command mailbox (`m_cmd`), whose idle value is `None`;
- a worker thread that runs the command loop. The worker has two lifecycle flags, `m_started`
  and `m_finished`.

Callers put a command in the slot with `sendCmd`, and a later send overwrites an earlier one.
The worker takes a command with `waitNextCmd` and dispatches it:

- `Init` runs the subclass `init()` hook;
- `Stop` sets status `Stopped`;
- `Abort` sets status `Finished`;
- `None` throws `InvalidValue`;
- any other value goes to the subclass `execCmd()` hook.

The loop ends once the status is `Finished`. Callers block in `waitStatus` or `waitNotStatus`
until the status they wait for appears.

The project has five modules:

- `ThreadCodes` (`codes.dfy`) holds the base status and command codes and the error kinds.
  `ThreadUtils.h` is not part of this model, so the numeric values are a pairwise-distinct
  choice: `InInit, Stopped, Finished = 0, 1, 2` with `MaxThreadStatus = 3`, and
  `None, Init, Stop, Abort = 0, 1, 2, 3` with `MaxThreadCmd = 4`.
- `CmdEngine` (`engine.dfy`) models the engine as values and holds most lemmas.
  - `Monitor` is the state guarded by the condition's lock.
  - `Step` is one critical section another thread runs on that state: `sendCmd`, `setStatus`,
    or the slot reset done by `waitNextCmd`.
  - A `Wakeup` is what one return of `m_cond.wait()` brings: the batch of critical sections
    that other threads ran while the waiter was blocked. An empty batch is a spurious wake-up.
  - `Await` gives the result of a `while (!pred) m_cond.wait();` loop over a finite trace of
    wake-ups. The loop either returns at the first state where the predicate holds, or is
    still `Blocked` when the wake-ups run out.
  - `Dispatch` is the `switch` of `cmdLoop`. `Loop` is `cmdLoop` itself.
- `ThreadUtils` (`thread_utils.dfy`) has the classes `Thread` (fields `started`, `finished`) and
  `CmdThread` (fields `status`, `cmd`, and the worker `Thread`). Their fields change in place.
  Each `CmdThread` method is proved against the `CmdEngine` functions. The three waits share the loop
  `WaitFor`. `CmdLoop` is a `while` loop whose invariant ties it to `Loop`.
- `Simulator` (`simulator.dfy`) holds the command values that the simulated detector's worker
  adds, from `MaxThreadCmd` on.
- `Scenarios` (`scenarios.dfy`) holds client code that uses the classes through their
  contracts only.

The subclass hooks `init()` and `execCmd()` are a parameter, `Hooks`. Each hook is a total
function from the status it starts in to the status it leaves, or to the exception it throws.
A hook never touches the command slot. Creating the system thread is also a parameter: the
boolean `created` says whether `pthread_create` succeeds.

One consequence of last-write-wins is proved in `Scenarios.AbortBeforeInit`. An `abort()` made
right after `start()`, before the worker takes the pending `Init`, overwrites that `Init`. The
worker then never runs `init()`: it takes only `Abort` and finishes.

Three error paths of the code, which the model follows:

- `Thread::start` throws `Error` when the worker is already started
  (common/src/ThreadUtils.cpp:207) and when thread creation fails (common/src/ThreadUtils.cpp:210).
- `Thread::abort` throws `Error` before a start (common/src/ThreadUtils.cpp:218).
- `CmdThread::start` throws `InvalidValue` when the worker is already started
  (common/src/ThreadUtils.cpp:324). It writes `Init` to the slot (line 326) before it attempts
  the creation (line 327), so a failed creation leaves `Init` in the slot.

## Model

| member | source | states |
|---|---|---|
| `ThreadUtils.Thread.constructor` | common/src/ThreadUtils.cpp:191-194 | a new worker is neither started nor finished |
| `ThreadUtils.Thread.Start` | common/src/ThreadUtils.cpp:204-213 | a second start fails with Error and changes nothing. A first start whose creation fails throws Error and leaves `started` false. Otherwise `started` becomes true. `started` is never cleared and `finished` is untouched |
| `ThreadUtils.Thread.Abort` | common/src/ThreadUtils.cpp:215-222 | fails with Error exactly when the worker was never started; otherwise a cancellation is requested exactly when the worker has not finished |
| `ThreadUtils.Thread.HasStarted` | common/src/ThreadUtils.cpp:224-227 | returns the `started` flag |
| `ThreadUtils.Thread.HasFinished` | common/src/ThreadUtils.cpp:229-232 | returns the `finished` flag |
| `ThreadUtils.Thread.StaticThreadFunction` | common/src/ThreadUtils.cpp:234-246 | once the body has returned or thrown, the worker ends with `finished` true and `started` unchanged |
| `ThreadUtils.CmdThread.constructor` | common/src/ThreadUtils.cpp:263-268 | a new command thread has status InInit, slot None and a fresh worker that is neither started nor finished |
| `ThreadUtils.CmdThread.GetStatus` | common/src/ThreadUtils.cpp:286-290 | returns the current status |
| `ThreadUtils.CmdThread.SetStatus` | common/src/ThreadUtils.cpp:292-297 | the status becomes the argument and the slot is unchanged |
| `ThreadUtils.CmdThread.SendCmd` | common/src/ThreadUtils.cpp:314-319 | the slot becomes the argument, whatever it held, and the status is unchanged |
| `ThreadUtils.CmdThread.WaitFor` | common/src/ThreadUtils.cpp:301-303 | the predicate loop around `m_cond.wait()` ends exactly as `Await` says. It returns only when the predicate holds. When it does not return, it has used every wake-up |
| `ThreadUtils.CmdThread.WaitStatus` | common/src/ThreadUtils.cpp:299-304 | returns only in a state whose status equals the target, namely the first such state along the wake-ups; a wait still blocked has used every wake-up |
| `ThreadUtils.CmdThread.WaitNotStatus` | common/src/ThreadUtils.cpp:306-312 | returns a status different from the one avoided. The value returned is the current status, in the first such state; a wait still blocked has used every wake-up |
| `ThreadUtils.CmdThread.Start` | common/src/ThreadUtils.cpp:321-328 | an already started worker makes it fail with InvalidValue and leaves the state and flags alone. Otherwise the slot becomes Init and the status is kept. The worker is started exactly when creation succeeds; a creation failure is passed on as Error |
| `ThreadUtils.CmdThread.Abort` | common/src/ThreadUtils.cpp:330-334 | sends Abort exactly when the status is not Finished. The new state is that of `AbortSteps` |
| `ThreadUtils.CmdThread.WaitNextCmd` | common/src/ThreadUtils.cpp:336-346 | returns the first non-None command seen along the wake-ups and leaves the slot None, with the status of that moment. It never returns None. When no command arrives, it is still blocked |
| `ThreadUtils.CmdThread.CmdLoop` | common/src/ThreadUtils.cpp:348-368 | exit, final state, wake-ups consumed and commands taken all equal those of `Loop` |
| `ThreadUtils.CmdThread.RunWorker` | common/src/ThreadUtils.cpp:234-261 | the worker body runs the command loop as `Loop` says. It marks the worker finished exactly when the loop returned or threw, and not while the loop is still blocked. `started` is left as it was, since the worker may run before it is set |
| `CmdEngine.FirstReach` | common/src/ThreadUtils.cpp:302-303 | the number of wake-ups a waiter lets pass: no earlier state satisfies its predicate, and the state reached does, unless the wake-ups ran out |
| `CmdEngine.Await` | common/src/ThreadUtils.cpp:299-312 | a wait returns at the first state along the trace that satisfies its predicate. It is blocked only if no state along the trace ever does |
| `CmdEngine.AwaitHoldsAtOnce` | common/src/ThreadUtils.cpp:302 | a wait whose predicate already holds returns at once and consumes no wake-up |
| `CmdEngine.AwaitFirst` | common/src/ThreadUtils.cpp:340-341 | any first index satisfying the predicate (or the end of a trace where nothing does) is the one the wait stops at |
| `CmdEngine.SendsOverwrite` | common/src/ThreadUtils.cpp:314-319 | after several sends only the last command is in the slot, and the status is untouched |
| `CmdEngine.LastWriteWins` | common/src/ThreadUtils.cpp:336-346 | if two sends happen before the worker wakes, the worker takes only the second |
| `CmdEngine.Dispatch` | common/src/ThreadUtils.cpp:352-366 | dispatch never touches the slot. It throws exactly for None, for an Init whose hook throws, or for a non-base command whose execCmd throws |
| `CmdEngine.DispatchTable` | common/src/ThreadUtils.cpp:352-366 | each row of the switch: None throws InvalidValue, Init runs init(), Stop gives Stopped, Abort gives Finished, and any other value runs execCmd() |
| `CmdEngine.DispatchUsesOneHook` | common/src/ThreadUtils.cpp:355-365 | Init consults only the init hook and any other non-base command only execCmd: replacing the other hook changes nothing |
| `CmdEngine.Loop` | common/src/ThreadUtils.cpp:348-368 | the loop ends Done only in status Finished; ends Waiting only after every wake-up, with an empty slot; never takes None |
| `CmdEngine.LoopStopsWhenFinished` | common/src/ThreadUtils.cpp:350 | once the status is Finished, the loop takes no command and consumes no wake-up |
| `CmdEngine.PendingAbortFinishes` | common/src/ThreadUtils.cpp:361-362 | a pending Abort makes the loop take only that Abort and end Done, with status Finished and slot None |
| `CmdEngine.AbortIsLast` | common/src/ThreadUtils.cpp:350-363 | once the loop takes an Abort, it exits: that Abort is the last command taken, and the loop ends Done in status Finished |
| `CmdEngine.ThrowIsLast` | common/src/ThreadUtils.cpp:352-365 | a loop that ends by throwing has taken at least one command; dispatching its last command in the final state fails with exactly the error the loop ends with, and the slot is empty |
| `CmdEngine.DestructorBlocksWithoutWorker` | common/src/ThreadUtils.cpp:270-274 | from any status other than Finished, `abort()` followed by `waitStatus(Finished)` stays blocked, with Abort in the slot, through any number of wake-ups in which no other thread acts |
| `CmdEngine.AbortIdempotent` | common/src/ThreadUtils.cpp:330-334 | abort changes nothing once the status is Finished, and aborting twice has the effect of aborting once |
| `Simulator.ExtensionsAreFresh` | camera/simulator/include/Simulator.h:80-82 | the simulator's acquisition commands start at `MaxThreadCmd`, so neither is a base command |
| `Simulator.AcquisitionCommandsReachExecCmd` | camera/simulator/include/Simulator.h:80-82 | StartAcq and StopAcq are dispatched to the execCmd hook and to nothing else |
| `Scenarios.RestartRefused` | common/src/ThreadUtils.cpp:321-328 | on a new command thread, the first start succeeds and the second fails with InvalidValue. The pending Init is left in place |
| `Scenarios.AbortBeforeInit` | common/src/ThreadUtils.cpp:321-334 | an abort right after start overwrites the pending Init. The worker takes only Abort, ends Done and is marked finished |
| `Scenarios.AbortAfterFinish` | common/src/ThreadUtils.cpp:330-334 | once the worker has finished, abort sends nothing on repeated calls |

## Left out

- `MutexAttr`, `Mutex`, `Cond` and `AutoMutex`, together with the locking in every `CmdThread` method and in `lock()`/`tryLock()` (common/src/ThreadUtils.cpp:7-189, 276-284). `MutexAttr`, `Mutex` and `AutoMutex` give mutual exclusion; here each critical section is one atomic step, except in `abort()` (below). `Cond` also wakes waiters, and that is modelled only through the wake-up traces (next line).
- `Cond::signal` (common/src/ThreadUtils.cpp:169-173), called by `setStatus` (line 296) and `sendCmd` (line 318), wakes a single waiter. The wake-up traces do not model this: each waiter is given its own wake-ups, with no link to any signal. Suppose the worker is blocked in `waitNextCmd` and a control thread is blocked in `waitStatus` on the same condition. A signal from `sendCmd` may then wake only the control thread, which waits again, and the worker stays asleep with a command in the slot. The model can neither show this nor rule it out. `Loop`'s `Waiting` result therefore describes the slot as the worker last saw it, not the real slot.
- Timed waits in `Cond::wait` (common/src/ThreadUtils.cpp:147-167), because they rest on `gettimeofday`, `double` seconds and `timespec` arithmetic. The engine's own waits wait with no timeout. Two quirks of the code as written:
  - the `retcode` declared at line 154 shadows the one at line 149, so a timed wait always reports `true`, even on expiry;
  - `tv_nsec` can exceed 10^9.
- `pthread_create`, `pthread_cancel` and `pthread_join`, and the destructor `~Thread` (common/src/ThreadUtils.cpp:196-202), because they are OS threading and forced cancellation:
  - thread creation is the parameter `created`;
  - a cancellation request is the boolean that `Thread.Abort` returns;
  - the interruption it causes is not modelled.
- `~CmdThread` (common/src/ThreadUtils.cpp:270-274) is not a method of the model. It is `abort()` followed by `waitStatus(Finished)`, two operations the model has. Nothing sets `Finished` when the worker never started or when its loop threw, so the destructor would never return in those cases; `CmdEngine.DestructorBlocksWithoutWorker` states this for wake-ups in which no other thread acts.
- `CmdThread.Abort` runs `getStatus()` and `sendCmd(Abort)` (common/src/ThreadUtils.cpp:332-333) as one step, although the code takes the lock twice. If the worker sets `Finished` between the two, the code still leaves `Abort` in a finished thread's slot; the model cannot show this.
- `Thread.Start` and `CmdThread.Start` are each one atomic step here, but `Thread::start` and `CmdThread::start` (common/src/ThreadUtils.cpp:204-213, 321-328) take no lock. Their check of `m_started` (lines 206, 323) and its setting (line 212) are separate steps, so two overlapping `start()` calls can both pass the check and create two workers. The refusal of a second start is proved only for calls that do not overlap. The worker may also run, and even finish, before `m_started` is set, because creation (line 209) comes before line 212; `CmdThread.RunWorker` therefore promises nothing about `started` beyond keeping it.
- The data race of `start()` writing `m_cmd` without the lock (common/src/ThreadUtils.cpp:326) has no meaning in a sequential model. It is a plain write here.
- Granularity of interleaving: other threads' critical sections reach the model only at the wait points, as wake-ups. A step another thread runs while the worker is outside `waitNextCmd` therefore shows up at the worker's next wait. This covers the time between `getStatus()` and `waitNextCmd()`, and the time a hook is running. So the model cannot express a status set to `Finished` by another thread during a hook and then seen by the loop's `getStatus()`.
- Hooks are seen only through their net effect: the final status, or the exception. A hook that throws carries no status, so the model keeps the status from before the hook, whereas the code keeps whatever status the hook set before it threw. Intermediate `setStatus` calls inside a hook, and any waiting a hook does, are not modelled.
- The simulator's acquisition loop (`execStartAcq`), its configuration setters, the buffer manager and the frame builder have declarations only in `camera/simulator/include/Simulator.h`. The code that would define them is not part of this model. Only the command enum (Simulator.h:80-82) is used; the status enum (Simulator.h:76-78) is used by nothing in this model.

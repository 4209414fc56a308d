/** The command-thread engine as values: the state guarded by the condition's
    lock, the critical sections other threads run on it, the three blocking
    waits, the dispatch of one command and the worker's command loop.
    The classes in module ThreadUtils are proved against these functions. */
module CmdEngine {
  import opened ThreadCodes

  /** The lock-protected state of a command thread: the status register and
      the single-slot command mailbox. */
  datatype Monitor = Monitor(status: int, cmd: int)

  /** The state of a freshly constructed command thread. */
  const Initial: Monitor := Monitor(InInit, None)

  /** One critical section run under the condition's lock. */
  datatype Step =
    | Sent(cmd: int)          // sendCmd: overwrite the slot
    | StatusSet(status: int)  // setStatus: overwrite the status
    | Taken                   // waitNextCmd: reset the slot to None

  function ApplyStep(m: Monitor, s: Step): Monitor
  {
    match s
    case Sent(c) => m.(cmd := c)
    case StatusSet(t) => m.(status := t)
    case Taken => m.(cmd := None)
  }

  /** Several critical sections, in order. */
  function ApplyAll(m: Monitor, steps: seq<Step>): Monitor
    decreases |steps|
  {
    if steps == [] then m else ApplyAll(ApplyStep(m, steps[0]), steps[1..])
  }

  /** What a thread blocked in m_cond.wait() finds when the wait returns: the
      critical sections other threads ran while it was waiting. An empty batch
      is a spurious wake-up. */
  type Wakeup = seq<Step>

  /** The state after a sequence of wake-ups. */
  function Replay(m: Monitor, ws: seq<Wakeup>): Monitor
    decreases |ws|
  {
    if ws == [] then m else Replay(ApplyAll(m, ws[0]), ws[1..])
  }

  /** The predicates the three waits of the engine loop on. */
  datatype Until =
    | StatusIs(status: int)     // waitStatus
    | StatusIsNot(status: int)  // waitNotStatus
    | CmdPending                // waitNextCmd

  predicate Holds(u: Until, m: Monitor)
  {
    match u
    case StatusIs(s) => m.status == s
    case StatusIsNot(s) => m.status != s
    case CmdPending => m.cmd != None
  }

  lemma {:induction false} ReplayCons(m: Monitor, ws: seq<Wakeup>)
    requires ws != []
    ensures forall j :: 1 <= j <= |ws| ==>
      Replay(m, ws[..j]) == Replay(ApplyAll(m, ws[0]), ws[1..][..j - 1])
  {
    forall j | 1 <= j <= |ws|
      ensures Replay(m, ws[..j]) == Replay(ApplyAll(m, ws[0]), ws[1..][..j - 1])
    {
      assert ws[..j][0] == ws[0];
      assert ws[..j][1..] == ws[1..][..j - 1];
    }
  }

  /** Appending one wake-up to a trace applies it last. */
  lemma {:induction false} ReplaySnoc(m: Monitor, ws: seq<Wakeup>, k: nat)
    requires k < |ws|
    ensures Replay(m, ws[..k + 1]) == ApplyAll(Replay(m, ws[..k]), ws[k])
    decreases k
  {
    if k > 0 {
      ReplayCons(m, ws);
      ReplaySnoc(ApplyAll(m, ws[0]), ws[1..], k - 1);
    } else {
      assert ws[..1][1..] == [];
    }
  }

  /** The number of wake-ups a waiter lets pass before its predicate holds:
      the first k whose state satisfies it, or |ws| when none does. */
  function FirstReach(m: Monitor, ws: seq<Wakeup>, u: Until): (k: nat)
    ensures k <= |ws|
    ensures forall j :: 0 <= j < k ==> !Holds(u, Replay(m, ws[..j]))
    ensures k == |ws| || Holds(u, Replay(m, ws[..k]))
    decreases |ws|
  {
    if Holds(u, m) || ws == [] then
      assert ws[..0] == [];
      0
    else
      ReplayCons(m, ws);
      assert ws[..0] == [];
      1 + FirstReach(ApplyAll(m, ws[0]), ws[1..], u)
  }

  /** The two ways a `while (!pred) m_cond.wait();` loop ends on a finite
      trace of wake-ups: it returns after `used` of them, or it is still
      blocked when they run out. */
  datatype Wait = Returned(used: nat, at: Monitor) | Blocked(at: Monitor)

  /** The result of a wait on `u` that starts in `m` and sees the wake-ups `ws`.
      It returns at the first state that satisfies `u`, possibly at once; it is
      blocked only if no state along the trace satisfies `u`. */
  function Await(m: Monitor, ws: seq<Wakeup>, u: Until): (r: Wait)
    ensures r.Returned? ==>
      r.used <= |ws| && Holds(u, r.at) && r.at == Replay(m, ws[..r.used]) &&
      forall j :: 0 <= j < r.used ==> !Holds(u, Replay(m, ws[..j]))
    ensures r.Blocked? ==>
      r.at == Replay(m, ws) &&
      forall j :: 0 <= j <= |ws| ==> !Holds(u, Replay(m, ws[..j]))
  {
    var k := FirstReach(m, ws, u);
    assert ws[..|ws|] == ws;
    var at := Replay(m, ws[..k]);
    if Holds(u, at) then Returned(k, at) else Blocked(at)
  }

  /** A wait whose predicate already holds returns at once, whatever follows. */
  lemma AwaitHoldsAtOnce(m: Monitor, ws: seq<Wakeup>, u: Until)
    requires Holds(u, m)
    ensures Await(m, ws, u) == Returned(0, m)
  {
  }

  /** Any index that is the first to satisfy `u` (or the end of a trace where
      nothing does) is the one Await picks. */
  lemma {:induction false} AwaitFirst(m: Monitor, ws: seq<Wakeup>, u: Until, k: nat)
    requires k <= |ws|
    requires forall j :: 0 <= j < k ==> !Holds(u, Replay(m, ws[..j]))
    requires k == |ws| || Holds(u, Replay(m, ws[..k]))
    ensures Await(m, ws, u) ==
      if Holds(u, Replay(m, ws[..k])) then Returned(k, Replay(m, ws[..k]))
      else Blocked(Replay(m, ws))
  {
  }

  /** Competing sends between two checks of a waiter: only the last one is
      seen, and the state is otherwise untouched. */
  lemma {:induction false} SendsOverwrite(m: Monitor, steps: seq<Step>)
    requires steps != []
    requires forall i :: 0 <= i < |steps| ==> steps[i].Sent?
    ensures ApplyAll(m, steps) == Monitor(m.status, steps[|steps| - 1].cmd)
    decreases |steps|
  {
    if |steps| > 1 {
      SendsOverwrite(ApplyStep(m, steps[0]), steps[1..]);
    }
  }

  /** Two sends before the worker wakes: the worker takes only the second. */
  lemma LastWriteWins(m: Monitor, a: int, b: int, rest: seq<Wakeup>)
    requires m.cmd == None && b != None
    ensures Await(m, [[Sent(a), Sent(b)]] + rest, CmdPending) == Returned(1, Monitor(m.status, b))
  {
    var ws := [[Sent(a), Sent(b)]] + rest;
    SendsOverwrite(m, ws[0]);
    assert ws[..1] == [ws[0]];
    assert Replay(m, ws[..1]) == Monitor(m.status, b);
    AwaitFirst(m, ws, CmdPending, 1);
  }

  /** The subclass hooks. Each maps the status it starts from to the status it
      leaves, or to the exception it throws; neither touches the command slot. */
  datatype Hooks = Hooks(init: int -> Result<int>, exec: (int, int) -> Result<int>)

  /** The effect of a hook on the state: its final status, or its exception. */
  function AfterHook(m: Monitor, r: Result<int>): Result<Monitor>
  {
    match r
    case Ok(s) => Ok(m.(status := s))
    case Failure(e) => Failure(e)
  }

  /** True of the commands the base engine handles itself. */
  predicate IsBaseCmd(c: int)
  {
    c == None || c == Init || c == Stop || c == Abort
  }

  /** The switch of cmdLoop: what one command does to the state. */
  function Dispatch(m: Monitor, c: int, h: Hooks): (r: Result<Monitor>)
    ensures r.Ok? ==> r.value.cmd == m.cmd
    ensures r.Failure? <==>
      c == None || (c == Init && h.init(m.status).Failure?) ||
      (!IsBaseCmd(c) && h.exec(c, m.status).Failure?)
  {
    if c == None then Failure(InvalidValue)
    else if c == Init then AfterHook(m, h.init(m.status))
    else if c == Stop then Ok(m.(status := Stopped))
    else if c == Abort then Ok(m.(status := Finished))
    else AfterHook(m, h.exec(c, m.status))
  }

  /** The dispatch table row by row. */
  lemma DispatchTable(m: Monitor, c: int, h: Hooks)
    ensures c == None ==> Dispatch(m, c, h) == Failure(InvalidValue)
    ensures c == Init ==> Dispatch(m, c, h) == AfterHook(m, h.init(m.status))
    ensures c == Stop ==> Dispatch(m, c, h) == Ok(Monitor(Stopped, m.cmd))
    ensures c == Abort ==> Dispatch(m, c, h) == Ok(Monitor(Finished, m.cmd))
    ensures !IsBaseCmd(c) ==> Dispatch(m, c, h) == AfterHook(m, h.exec(c, m.status))
  {
  }

  /** Init consults only the init hook, and any other non-base command only
      execCmd: changing the other hook changes nothing. */
  lemma DispatchUsesOneHook(m: Monitor, c: int, h: Hooks, g: Hooks)
    requires c == Init ==> h.init(m.status) == g.init(m.status)
    requires !IsBaseCmd(c) ==> h.exec(c, m.status) == g.exec(c, m.status)
    ensures Dispatch(m, c, h) == Dispatch(m, c, g)
  {
  }

  /** How the command loop ends on a finite trace: status Finished was seen,
      the worker is still blocked on an empty slot, or a dispatch threw. */
  datatype Exit = Done | Waiting | Threw(error: ErrorKind)

  /** A run of the command loop: how it ended, the final state, how many
      wake-ups it consumed and the commands it took, in order. */
  datatype Run = Run(exit: Exit, at: Monitor, used: nat, taken: seq<int>)

  /** cmdLoop: while the status is not Finished, wait for a command, take it
      (reset the slot) and dispatch it. */
  function Loop(m: Monitor, ws: seq<Wakeup>, h: Hooks): (r: Run)
    ensures r.used <= |ws|
    ensures r.exit == Done ==> r.at.status == Finished
    ensures r.exit == Waiting ==> r.used == |ws| && r.at.cmd == None
    ensures forall i :: 0 <= i < |r.taken| ==> r.taken[i] != None
    decreases |ws|, if m.cmd == None then 0 else 1
  {
    if m.status == Finished then Run(Done, m, 0, [])
    else
      match Await(m, ws, CmdPending)
      case Blocked(at) => Run(Waiting, at, |ws|, [])
      case Returned(k, at) =>
        assert ws[..0] == [];
        var took := ApplyStep(at, Taken);
        match Dispatch(took, at.cmd, h)
        case Failure(e) => Run(Threw(e), took, k, [at.cmd])
        case Ok(next) =>
          var rest := Loop(next, ws[k..], h);
          Run(rest.exit, rest.at, k + rest.used, [at.cmd] + rest.taken)
  }

  /** A run that first consumed `used` wake-ups and took `taken`, then went on as `r`. */
  function Prefixed(used: nat, taken: seq<int>, r: Run): Run
  {
    Run(r.exit, r.at, used + r.used, taken + r.taken)
  }

  lemma PrefixedTwice(a: nat, s: seq<int>, b: nat, t: seq<int>, r: Run)
    ensures Prefixed(a, s, Prefixed(b, t, r)) == Prefixed(a + b, s + t, r)
  {
  }

  // One pass of the command loop from a state that is not Finished, in its
  // three cases.

  /** The wait for a command runs out of wake-ups. */
  lemma LoopBlocks(m: Monitor, ws: seq<Wakeup>, h: Hooks, at: Monitor)
    requires m.status != Finished && Await(m, ws, CmdPending) == Blocked(at)
    ensures Loop(m, ws, h) == Run(Waiting, at, |ws|, [])
  {
  }

  /** The command taken throws. */
  lemma LoopThrows(m: Monitor, ws: seq<Wakeup>, h: Hooks, k: nat, at: Monitor, e: ErrorKind)
    requires m.status != Finished && Await(m, ws, CmdPending) == Returned(k, at)
    requires Dispatch(ApplyStep(at, Taken), at.cmd, h) == Failure(e)
    ensures Loop(m, ws, h) == Run(Threw(e), ApplyStep(at, Taken), k, [at.cmd])
  {
  }

  /** The command taken is dispatched and the loop goes on from the new state. */
  lemma LoopContinues(m: Monitor, ws: seq<Wakeup>, h: Hooks, k: nat, at: Monitor, next: Monitor)
    requires m.status != Finished && Await(m, ws, CmdPending) == Returned(k, at)
    requires Dispatch(ApplyStep(at, Taken), at.cmd, h) == Ok(next)
    ensures Loop(m, ws, h) == Prefixed(k, [at.cmd], Loop(next, ws[k..], h))
  {
  }

  /** Once the status is Finished the loop takes no further command. */
  lemma LoopStopsWhenFinished(m: Monitor, ws: seq<Wakeup>, h: Hooks)
    requires m.status == Finished
    ensures Loop(m, ws, h) == Run(Done, m, 0, [])
  {
  }

  /** An Abort already in the slot ends the loop at once, in status Finished. */
  lemma PendingAbortFinishes(m: Monitor, ws: seq<Wakeup>, h: Hooks)
    requires m.status != Finished && m.cmd == Abort
    ensures Loop(m, ws, h) == Run(Done, Monitor(Finished, None), 0, [Abort])
  {
  }

  /** Once an Abort is dispatched the loop exits: it is the last command
      taken, and the loop ends Done in status Finished. */
  lemma {:induction false} AbortIsLast(m: Monitor, ws: seq<Wakeup>, h: Hooks, i: nat)
    requires i < |Loop(m, ws, h).taken| && Loop(m, ws, h).taken[i] == Abort
    ensures i == |Loop(m, ws, h).taken| - 1
    ensures Loop(m, ws, h).exit == Done && Loop(m, ws, h).at.status == Finished
    decreases |ws|, if m.cmd == None then 0 else 1
  {
    match Await(m, ws, CmdPending)
    case Blocked(at) =>
    case Returned(k, at) =>
      assert ws[..0] == [];
      var took := ApplyStep(at, Taken);
      match Dispatch(took, at.cmd, h)
      case Failure(e) =>
      case Ok(next) =>
        var rest := Loop(next, ws[k..], h);
        if i > 0 {
          AbortIsLast(next, ws[k..], h, i - 1);
        } else {
          assert next.status == Finished;
          assert rest == Run(Done, next, 0, []);
        }
  }

  /** A dispatch that throws ends the loop: the throwing command is the last
      one taken, its dispatch threw the error the loop ends with, the status is
      the one before it and the slot is empty. */
  lemma {:induction false} ThrowIsLast(m: Monitor, ws: seq<Wakeup>, h: Hooks)
    requires Loop(m, ws, h).exit.Threw?
    ensures |Loop(m, ws, h).taken| > 0
    ensures Dispatch(Loop(m, ws, h).at, Loop(m, ws, h).taken[|Loop(m, ws, h).taken| - 1], h)
      == Failure(Loop(m, ws, h).exit.error)
    ensures Loop(m, ws, h).at.cmd == None
    decreases |ws|, if m.cmd == None then 0 else 1
  {
    match Await(m, ws, CmdPending)
    case Blocked(at) =>
    case Returned(k, at) =>
      assert ws[..0] == [];
      var took := ApplyStep(at, Taken);
      match Dispatch(took, at.cmd, h)
      case Failure(e) =>
      case Ok(next) =>
        ThrowIsLast(next, ws[k..], h);
  }

  /** abort(): the critical sections it runs on a given state. It sends Abort
      only while the status is not Finished. */
  function AbortSteps(m: Monitor): seq<Step>
  {
    if m.status != Finished then [Sent(Abort)] else []
  }

  /** abort() is idempotent, and changes nothing once the status is Finished. */
  lemma AbortIdempotent(m: Monitor)
    ensures m.status == Finished ==> ApplyAll(m, AbortSteps(m)) == m
    ensures var a := ApplyAll(m, AbortSteps(m)); ApplyAll(a, AbortSteps(a)) == a
  {
  }

  /** Wake-ups in which no other thread runs a critical section leave the
      state as it is. */
  lemma {:induction false} ReplayQuiet(m: Monitor, ws: seq<Wakeup>)
    requires forall i :: 0 <= i < |ws| ==> ws[i] == []
    ensures Replay(m, ws) == m
    decreases |ws|
  {
    if ws != [] {
      ReplayQuiet(ApplyAll(m, ws[0]), ws[1..]);
    }
  }

  /** The destructor of a command thread: abort(), then waitStatus(Finished).
      When no other thread acts any more (the worker never started, or its
      loop threw and it has gone), the wait never returns, however many
      wake-ups pass. */
  lemma DestructorBlocksWithoutWorker(m: Monitor, ws: seq<Wakeup>)
    requires m.status != Finished
    requires forall i :: 0 <= i < |ws| ==> ws[i] == []
    ensures Await(ApplyAll(m, AbortSteps(m)), ws, StatusIs(Finished))
      == Blocked(Monitor(m.status, Abort))
  {
    var a := ApplyAll(m, AbortSteps(m));
    assert [Sent(Abort)][1..] == [];
    forall j | 0 <= j <= |ws|
      ensures Replay(a, ws[..j]) == a
    {
      ReplayQuiet(a, ws[..j]);
    }
    ReplayQuiet(a, ws);
  }
}

/** The worker thread and the command thread as objects whose fields are
    updated in place. Each method of CmdThread other than Start is one step
    taken under the condition's lock, or a sequence of such steps; Thread's
    methods and CmdThread.Start take no lock. A blocking wait consumes the
    wake-ups given to it as a parameter (see CmdEngine.Wakeup). */
module ThreadUtils {
  import opened ThreadCodes
  import opened CmdEngine

  /** A background execution context; only its lifecycle flags are modelled. */
  class Thread {
    var started: bool
    var finished: bool

    constructor ()
      ensures !started && !finished
    {
      started, finished := false, false;
    }

    /** Spawns the worker. `created` says whether the system call creating the
        thread succeeds. `started` is set only after a successful creation. */
    method Start(created: bool) returns (r: Outcome)
      modifies this
      ensures old(started) ==> r == Fail(Error) && started
      ensures !old(started) ==> started == created && (r == if created then Pass else Fail(Error))
      ensures finished == old(finished)
    {
      if started {
        return Fail(Error);
      }
      if !created {
        return Fail(Error);
      }
      started := true;
      r := Pass;
    }

    /** Requests cancellation of a running worker. Fails with Error if the
        worker was never started; otherwise returns whether a cancellation is
        requested, which happens exactly when the worker has not finished. */
    method Abort() returns (r: Result<bool>)
      ensures r.Failure? <==> !started
      ensures r.Failure? ==> r.error == Error
      ensures r.Ok? ==> (r.value <==> !finished)
    {
      if !started {
        return Failure(Error);
      }
      r := Ok(!finished);
    }

    method HasStarted() returns (b: bool)
      ensures b == started
    {
      b := started;
    }

    method HasFinished() returns (b: bool)
      ensures b == finished
    {
      b := finished;
    }

    /** The end of the worker's body: the body's outcome, returned or thrown,
        is discarded and the worker is marked finished. */
    method StaticThreadFunction()
      modifies this
      ensures finished && started == old(started)
    {
      finished := true;
    }
  }

  /** The generic command thread: a status register, a single-slot command
      mailbox and the worker that runs the command loop. */
  class CmdThread {
    var status: int
    var cmd: int
    const worker: Thread

    ghost function State(): Monitor
      reads this
    {
      Monitor(status, cmd)
    }

    constructor ()
      ensures State() == Initial
      ensures fresh(worker) && !worker.started && !worker.finished
    {
      status, cmd := InInit, None;
      worker := new Thread();
    }

    method GetStatus() returns (s: int)
      ensures s == status
    {
      s := status;
    }

    method SetStatus(s: int)
      modifies this
      ensures State() == ApplyStep(old(State()), StatusSet(s))
    {
      status := s;
    }

    /** Overwrites the command slot, whatever it held. */
    method SendCmd(c: int)
      modifies this
      ensures State() == ApplyStep(old(State()), Sent(c))
    {
      cmd := c;
    }

    /** Refuses a second start with InvalidValue; otherwise puts Init in the
        slot and starts the worker, passing on a creation failure (the slot
        then keeps Init). */
    method Start(created: bool) returns (r: Outcome)
      modifies this, worker
      ensures old(worker.started) ==>
        r == Fail(InvalidValue) && State() == old(State()) && worker.started
      ensures !old(worker.started) ==>
        State() == Monitor(old(status), Init) && worker.started == created &&
        (r == if created then Pass else Fail(Error))
      ensures worker.finished == old(worker.finished)
    {
      var already := worker.HasStarted();
      if already {
        return Fail(InvalidValue);
      }
      cmd := Init;
      r := worker.Start(created);
    }

    /** Sends Abort unless the status is already Finished; returns whether it
        was sent. */
    method Abort() returns (sent: bool)
      modifies this
      ensures sent <==> old(status) != Finished
      ensures State() == ApplyAll(old(State()), AbortSteps(old(State())))
    {
      var s := GetStatus();
      sent := s != Finished;
      if sent {
        SendCmd(ThreadCodes.Abort);
      }
    }

    /** `while (!pred) m_cond.wait();`: each wait returns after the critical
        sections of the next wake-up. Returns how many wake-ups passed and
        whether the predicate now holds (false: still blocked). */
    method WaitFor(u: Until, ws: seq<Wakeup>) returns (used: nat, returned: bool)
      modifies this
      ensures Await(old(State()), ws, u) ==
        if returned then Returned(used, State()) else Blocked(State())
      ensures returned <==> Holds(u, State())
      ensures !returned ==> used == |ws|
    {
      ghost var m0 := State();
      used := 0;
      assert ws[..0] == [];
      while !Holds(u, Monitor(status, cmd)) && used < |ws|
        invariant used <= |ws|
        invariant State() == Replay(m0, ws[..used])
        invariant forall j :: 0 <= j < used ==> !Holds(u, Replay(m0, ws[..j]))
      {
        ReplaySnoc(m0, ws, used);
        var next := ApplyAll(Monitor(status, cmd), ws[used]);
        status, cmd := next.status, next.cmd;
        used := used + 1;
      }
      returned := Holds(u, Monitor(status, cmd));
      AwaitFirst(m0, ws, u, used);
      assert ws[..|ws|] == ws;
    }

    /** Returns only once the status equals `target`. */
    method WaitStatus(target: int, ws: seq<Wakeup>) returns (used: nat, returned: bool)
      modifies this
      ensures Await(old(State()), ws, StatusIs(target)) ==
        if returned then Returned(used, State()) else Blocked(State())
      ensures returned ==> status == target
      ensures !returned ==> used == |ws|
    {
      used, returned := WaitFor(StatusIs(target), ws);
    }

    /** Returns, as `s`, a status different from `avoid`: the current one. */
    method WaitNotStatus(avoid: int, ws: seq<Wakeup>) returns (used: nat, returned: bool, s: int)
      modifies this
      ensures Await(old(State()), ws, StatusIsNot(avoid)) ==
        if returned then Returned(used, State()) else Blocked(State())
      ensures returned ==> s == status && s != avoid
      ensures !returned ==> used == |ws|
    {
      used, returned := WaitFor(StatusIsNot(avoid), ws);
      s := status;
    }

    /** Waits for a pending command, returns it and leaves the slot None;
        the status is not touched, and the command returned is never None. */
    method WaitNextCmd(ws: seq<Wakeup>) returns (used: nat, got: bool, c: int)
      modifies this
      ensures var w := Await(old(State()), ws, CmdPending);
        if got then w == Returned(used, Monitor(status, c)) && cmd == None
        else w == Blocked(State()) && used == |ws|
      ensures got ==> c != None && cmd == None
    {
      used, got := WaitFor(CmdPending, ws);
      c := cmd;
      if got {
        cmd := None;
      }
    }

    /** cmdLoop: while the status is not Finished, take the next command and
        dispatch it. Ends Done once Finished is seen, Waiting when the
        wake-ups run out on an empty slot, or Threw when a dispatch throws. */
    method CmdLoop(ws: seq<Wakeup>, h: Hooks) returns (exit: Exit, used: nat, taken: seq<int>)
      modifies this
      ensures Run(exit, State(), used, taken) == Loop(old(State()), ws, h)
    {
      ghost var m0 := State();
      used, taken := 0, [];
      var rest := ws;
      while status != Finished
        invariant used + |rest| == |ws|
        invariant Loop(m0, ws, h) == Prefixed(used, taken, Loop(State(), rest, h))
        decreases |rest|, if cmd == None then 0 else 1
      {
        ghost var cur := State();
        var k, got, c := WaitNextCmd(rest);
        if !got {
          LoopBlocks(cur, rest, h, State());
          return Waiting, |ws|, taken;
        }
        ghost var at := Monitor(status, c);
        var d := Dispatch(Monitor(status, cmd), c, h);
        if d.Failure? {
          LoopThrows(cur, rest, h, k, at, d.error);
          PrefixedTwice(used, taken, k, [c], Run(Threw(d.error), State(), 0, []));
          return Threw(d.error), used + k, taken + [c];
        }
        LoopContinues(cur, rest, h, k, at, d.value);
        PrefixedTwice(used, taken, k, [c], Loop(d.value, rest[k..], h));
        SetStatus(d.value.status);
        used, taken, rest := used + k, taken + [c], rest[k..];
      }
      exit := Done;
    }

    /** The worker's body: the command loop, wrapped so that an exception is
        swallowed and the worker marked finished. A loop still blocked at the
        end of the wake-ups has not returned, so the worker is not finished. */
    method RunWorker(ws: seq<Wakeup>, h: Hooks) returns (exit: Exit, used: nat, taken: seq<int>)
      modifies this, worker
      ensures Run(exit, State(), used, taken) == Loop(old(State()), ws, h)
      ensures worker.started == old(worker.started)
      ensures worker.finished <==> exit != Waiting || old(worker.finished)
    {
      exit, used, taken := CmdLoop(ws, h);
      if exit != Waiting {
        worker.StaticThreadFunction();
      }
    }
  }
}

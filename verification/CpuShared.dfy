/** The shared vCPU state as an object. Each method is one critical section and does
    exactly what its protocol step does to the state behind the mutex; a condition wait
    shows as a result that says the caller must wait. */
module CpuShared {
  import opened Wrappers
  import opened Cpus

  datatype PauseOutcome = Paused | Stopping

  /** The number of targets below an affinity level. */
  function Span8(level: nat): nat {
    if level == 0 then 1 else 256 * Span8(level - 1)
  }

  class Shared {
    var stop: bool
    var paused: bool
    var started: bool
    var power: seq<Power>
    var running: seq<bool>

    function State(): Cell
      reads this
    {
      Cell(stop, paused, started, power, running)
    }

    constructor (n: nat)
      ensures State() == Initial(n).cell
    {
      stop, paused, started := false, false, false;
      power, running := seq(n, _ => Off), seq(n, _ => false);
    }

    /** Someone waits for the running flags: is anybody still running? */
    method Busy() returns (any: bool)
      ensures any == State().AnyRunning()
    {
      var j := 0;
      while j < |running|
        invariant j <= |running| && forall k :: 0 <= k < j ==> !running[k]
      {
        if running[j] {
          return true;
        }
        j := j + 1;
      }
      return false;
    }

    method RequestStop()
      modifies this`stop
      ensures State() == old(State()).(stop := true)
    {
      stop := true;
    }

    /** CPU_ON: only a vCPU that is off is set pending, and its worker is notified. */
    method TurnOn(target: nat, entry: nat, context: nat, ghost s: Sys, ghost i: nat) returns (code: int, notify: bool)
      requires s.Shaped() && s.cell == State() && Enabled(s, Step.TurnOn(i, target, entry, context))
      modifies this`power
      ensures State() == Apply(s, Step.TurnOn(i, target, entry, context)).cell
      ensures code == OnCode(s.cell, target, entry) && (notify <==> State() != s.cell)
    {
      if target >= |power| {
        return INVALID_PARAMETERS, false;
      }
      if entry % 4 != 0 {
        return INVALID_ADDRESS, false;
      }
      match power[target] {
        case On => return ALREADY_ON, false;
        case Pending(_, _) => return ON_PENDING, false;
        case Off =>
          power := power[target := Pending(entry, context)];
          assert power[target] != s.cell.power[target];
          return SUCCESS, true;
      }
    }

    /** AFFINITY_INFO: one vCPU at level 0, otherwise whether any vCPU of the group that
        starts at the lowest affinity is not off. */
    method Affinity(target: nat, level: nat) returns (code: int)
      ensures code in {0, 1, 2, INVALID_PARAMETERS}
      ensures level > 3 || (level == 0 && target >= |power|) || (level > 0 && target >= Span8(level)) <==>
              code == INVALID_PARAMETERS
      ensures level == 0 && target < |power| ==> code == match power[target] case On => 0 case Off => 1 case Pending(_, _) => 2
      ensures 0 < level <= 3 && target < Span8(level) ==>
                (code == 0 <==> exists j :: 0 <= j < |power| && power[j] != Off) && code in {0, 1}
    {
      if level > 3 {
        return INVALID_PARAMETERS;
      }
      if level == 0 {
        if target >= |power| {
          return INVALID_PARAMETERS;
        }
        return match power[target] case On => 0 case Off => 1 case Pending(_, _) => 2;
      }
      if target >= Span8(level) {
        return INVALID_PARAMETERS;
      }
      var j := 0;
      while j < |power|
        invariant j <= |power| && forall k :: 0 <= k < j ==> power[k] == Off
      {
        if power[j] != Off {
          return 0;
        }
        j := j + 1;
      }
      return 1;
    }

    /** A worker at the top of its loop, or woken there: true to run, false to leave, None
        to wait. `first` tells that it comes from the loop, not from a wait. */
    method Decide(i: nat, first: bool, bootOk: bool, ghost s: Sys) returns (r: Option<Result<bool, Unit>>)
      requires s.Shaped() && s.cell == State() && i < |power| == |running|
      requires Enabled(s, if first then EnterLoop(i, bootOk) else Recheck(i, bootOk))
      modifies this`power, this`running
      ensures var t := Apply(s, if first then EnterLoop(i, bootOk) else Recheck(i, bootOk));
              && State() == t.cell
              && t.pc[i] == match r
                            case None => Waiting
                            case Some(Ok(go)) => if go then Guest else Leaving(false)
                            case Some(Err(_)) => Leaving(true)
    {
      if first {
        running := running[i := false];
      }
      if stop {
        return Some(Ok(false));
      }
      if !started || paused || power[i] == Off {
        return None;
      }
      if power[i].Pending? {
        if !bootOk {
          return Some(Err(Unit));
        }
        power := power[i := On];
      }
      running := running[i := true];
      return Some(Ok(true));
    }

    method WaitIo(i: nat, ghost s: Sys)
      requires s.Shaped() && s.cell == State() && Enabled(s, Step.WaitIo(i))
      modifies this`running
      ensures State() == Apply(s, Step.WaitIo(i)).cell
    {
      running := running[i := false];
    }

    /** Whether the I/O result may be written back: None means wait. */
    method CompleteIo(i: nat, ghost s: Sys) returns (r: Option<bool>)
      requires s.Shaped() && s.cell == State() && Enabled(s, Step.CompleteIo(i))
      modifies this`running
      ensures var t := Apply(s, Step.CompleteIo(i));
              && State() == t.cell
              && t.pc[i] == match r
                            case None => IoWaiting
                            case Some(go) => if go then Writeback else Leaving(false)
    {
      if paused && !stop {
        return None;
      }
      if stop {
        return Some(false);
      }
      running := running[i := true];
      return Some(true);
    }

    method BeginPause(ghost s: Sys)
      requires s.Shaped() && s.cell == State() && Enabled(s, PauseBegin)
      modifies this`paused
      ensures State() == Apply(s, PauseBegin).cell
    {
      paused := true;
    }

    /** The pause loop's test: a stop that wins the race is an outcome, not an error. */
    method TryPause() returns (r: Option<PauseOutcome>)
      ensures r == None <==> State().AnyRunning() && !stop
      ensures r == Some(Paused) ==> !State().AnyRunning() && !stop
      ensures r == Some(Stopping) ==> stop
    {
      var any := Busy();
      if any && !stop {
        return None;
      }
      return Some(if stop then Stopping else Paused);
    }

    method Resume(ghost s: Sys)
      requires s.Shaped() && s.cell == State() && Enabled(s, Step.Resume)
      modifies this`paused
      ensures State() == Apply(s, Step.Resume).cell
    {
      paused := false;
    }

    /** A worker's exit path: it stops everybody before it destroys its vCPU. */
    method Quit(i: nat, ghost s: Sys)
      requires s.Shaped() && s.cell == State() && Enabled(s, Step.Quit(i))
      modifies this`running, this`stop
      ensures State() == Apply(s, Step.Quit(i)).cell
    {
      running := running[i := false];
      stop := true;
    }
  }

  // ---------------------------------------------------------------------------
  // The event channel

  datatype Polled = Io(cpu: nat) | Ended | Idle

  class Events {
    var queue: seq<Message>

    constructor ()
      ensures queue == []
    {
      queue := [];
    }

    method Send(m: Message)
      modifies this
      ensures queue == old(queue) + [m]
    {
      queue := queue + [m];
    }

    /** Take the next event. A fault is returned at once and taken out of the channel;
        only an empty channel lets the stopping flag decide. */
    method Poll(stopping: bool, connected: bool) returns (r: Result<Polled, Message>)
      modifies this
      ensures old(queue) == [] ==> && queue == [] && (r.Err? <==> !stopping && !connected)
                                   && (r.Ok? ==> r.value == if stopping then Ended else Idle)
      ensures old(queue) != [] ==> && queue == old(queue)[1..] && (r.Err? <==> old(queue)[0].Failed?)
                                   && (r.Err? ==> r.error == old(queue)[0])
      ensures old(queue) != [] && r.Ok? ==> r.value == if old(queue)[0].Access? then Io(old(queue)[0].cpu) else Ended
      ensures Faults(old(queue)) == (if r.Err? && old(queue) != [] then [r.error.cpu] else []) + Faults(queue)
    {
      if queue == [] {
        return if stopping then Ok(Ended) else if !connected then Err(Shutdown) else Ok(Idle);
      }
      var m := queue[0];
      queue := queue[1..];
      match m {
        case Failed(_) => return Err(m);
        case Access(i) => return Ok(Io(i));
        case Shutdown => return Ok(Ended);
      }
    }

    /** Empty the channel and return the first fault in it; a second drain finds none. */
    method Drain() returns (fault: Option<nat>)
      modifies this
      ensures queue == []
      ensures fault == if Faults(old(queue)) == [] then None else Some(Faults(old(queue))[0])
    {
      fault := None;
      while queue != []
        invariant fault.None? ==> Faults(queue) == Faults(old(queue))
        invariant fault.Some? ==> Faults(old(queue)) != [] && fault.value == Faults(old(queue))[0]
        decreases |queue|
      {
        var m := queue[0];
        queue := queue[1..];
        if m.Failed? && fault.None? {
          fault := Some(m.cpu);
        }
      }
    }
  }
}

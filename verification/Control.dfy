/** The control protocol: clients submit pause and resume requests or stop the VM, the
    run loop serves them on its own thread. Steps are the critical sections of one
    mutex and the run loop's moves between them. */
module Control {
  import opened Wrappers

  datatype Lifecycle = Created | Starting | Running | Paused | Stopping | Stopped

  /** Progress of the lifecycle; running and paused are the same stage. */
  function Rank(l: Lifecycle): nat {
    match l
    case Created => 0
    case Starting => 1
    case Running => 2
    case Paused => 2
    case Stopping => 3
    case Stopped => 4
  }

  datatype Operation = Pause | Resume

  datatype Request = Request(id: nat, operation: Operation)

  datatype Reply = Reply(id: nat, ok: bool)

  /** Where the run thread is. */
  datatype Pc =
    | NotBegun
    | Init             // begun, before the run loop
    | Loop             // at the top of the run loop
    | InHand           // took a request from the queue
    | Served(ok: bool) // platform call returned, not yet completed
    | Waiting          // in the paused wait
    | Ended            // out of the run loop
    | Cleaning         // cleaning up
    | Saved            // cleanup result saved
    | Over             // finished, or never to run

  /** Control state, run thread, and what happened so far. `paused` is the run loop's own
      flag and `barrier` says that the VM is held by pause. */
  datatype Sys = Sys(lifecycle: Lifecycle, queue: seq<Request>, cleanupError: Option<nat>,
                     pc: Pc, hand: Option<Request>, paused: bool, barrier: bool,
                     next: nat, replies: seq<Reply>,
                     stoppers: set<nat>, asleep: set<nat>, runAsleep: bool,
                     returned: map<nat, Option<nat>>)
  {
    /** Reject everything that is queued. */
    function Cancelled(): Sys {
      this.(queue := [], replies := replies + Rejections(queue))
    }

    function Notified(): Sys {
      this.(asleep := {}, runAsleep := false)
    }
  }

  function Rejections(queue: seq<Request>): (s: seq<Reply>)
    ensures |s| == |queue| && forall i :: 0 <= i < |queue| ==> s[i] == Reply(queue[i].id, false)
  {
    seq(|queue|, i requires 0 <= i < |queue| => Reply(queue[i].id, false))
  }

  function Initial(): Sys {
    Sys(Created, [], None, NotBegun, None, false, false, 0, [], {}, {}, false, map[])
  }

  datatype Step =
    | Submit(operation: Operation)
    | CallStop(client: nat)
    | StopWait(client: nat)
    | StopReturn(client: nat)
    | Wake(client: nat)
    | WakeRun
    | Begin
    | FailNew
    | EnterLoop
    | SkipLoop
    | Take
    | Serve(ok: bool)
    | Reject
    | Complete
    | Wait
    | Wakened
    | Work
    | Break
    | Clean
    | SaveCleanup(error: Option<nat>)
    | Finish
    | Drop(panic: Option<nat>)

  predicate Enabled(s: Sys, e: Step) {
    match e
    case Submit(_) => s.lifecycle in {Running, Paused}
    case CallStop(c) => c !in s.stoppers && c !in s.returned
    case StopWait(c) => c in s.stoppers && s.lifecycle != Stopped
    case StopReturn(c) => c in s.stoppers && c !in s.asleep && s.lifecycle == Stopped
    case Wake(_) => true
    case WakeRun => true
    case Begin => s.pc == NotBegun
    case FailNew => s.pc == Init
    case EnterLoop => s.pc == Init
    case SkipLoop => s.pc == Init
    case Take => s.pc == Loop && s.queue != []
    case Serve(_) => s.pc == InHand
    case Reject => s.pc == InHand && s.hand.Some?
    case Complete => s.pc.Served? && s.hand.Some?
    case Wait => s.pc in {Loop, Waiting} && s.paused && s.lifecycle == Paused && s.queue == []
    case Wakened => s.pc == Waiting && !s.runAsleep && !(s.lifecycle == Paused && s.queue == [])
    case Work => s.pc == Loop && !s.paused
    case Break => s.pc == Loop
    case Clean => s.pc == Ended
    case SaveCleanup(_) => s.pc == Cleaning
    case Finish => s.pc == Saved
    case Drop(_) => s.pc != Over && s.hand == None
  }

  /** The run thread ends the VM's life. */
  function Finished(s: Sys): Sys {
    s.(lifecycle := Stopped, pc := Over).Cancelled().Notified()
  }

  function Apply(s: Sys, e: Step): Sys
    requires Enabled(s, e)
  {
    match e
    case Submit(op) => s.(queue := s.queue + [Request(s.next, op)], next := s.next + 1).Notified()
    case CallStop(c) =>
      s.(lifecycle := if s.lifecycle in {Created, Stopped} then Stopped else Stopping,
       stoppers := s.stoppers + {c}).Cancelled().Notified()
    case StopWait(c) => s.(asleep := s.asleep + {c})
    case StopReturn(c) => s.(stoppers := s.stoppers - {c}, returned := s.returned[c := s.cleanupError])
    case Wake(c) => s.(asleep := s.asleep - {c})
    case WakeRun => s.(runAsleep := false)
    case Begin => if s.lifecycle == Created then s.(lifecycle := Starting, pc := Init) else s.(pc := Over)
    case FailNew => Finished(s)
    case EnterLoop => s.(lifecycle := if s.lifecycle == Starting then Running else s.lifecycle, pc := Loop)
    case SkipLoop => s.(pc := Ended)
    case Take => s.(hand := Some(s.queue[0]), queue := s.queue[1..], pc := InHand)
    case Serve(ok) =>
      s.(pc := Served(ok), barrier := if !ok || s.hand.None? then s.barrier else s.hand.value.operation == Pause)
    case Reject =>
      s.(lifecycle := Stopping, queue := [s.hand.value] + s.queue, hand := None, pc := Ended).Cancelled().Notified()
    case Complete =>
      var op, ok := s.hand.value.operation, s.pc.ok;
      s.(lifecycle := if ok && s.lifecycle != Stopping then (if op == Pause then Paused else Running) else s.lifecycle,
       paused := if ok then op == Pause else s.paused,
       replies := s.replies + [Reply(s.hand.value.id, ok)], hand := None,
       pc := if ok then Loop else Ended)
    case Wait => s.(pc := Waiting, runAsleep := true)
    case Wakened => s.(pc := Loop)
    case Work => s
    case Break => s.(pc := Ended)
    case Clean => s.(lifecycle := Stopping, pc := Cleaning).Cancelled()
    case SaveCleanup(error) => s.(cleanupError := error, pc := Saved)
    case Finish => Finished(s)
    case Drop(panic) =>
      if s.lifecycle == Stopped then s.(pc := Over)
      else Finished(s.(cleanupError := if panic.Some? then panic else s.cleanupError))
  }

  function After(s: Sys, es: seq<Step>, n: nat): Sys
    requires n <= |es|
  {
    if n == 0 then s
    else
      var p := After(s, es, n - 1);
      if Enabled(p, es[n - 1]) then Apply(p, es[n - 1]) else p
  }
}

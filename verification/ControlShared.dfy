/** The control state as an object: each method is one critical section and does what
    its protocol step does; `rejected` and replies are what it sends to clients. */
module ControlShared {
  import opened Wrappers
  import opened Control

  class VmControl {
    var lifecycle: Lifecycle
    var queue: seq<Request>
    var cleanupError: Option<nat>

    /** The object is the protocol state's locked part. */
    ghost predicate Shows(s: Sys)
      reads this
    {
      lifecycle == s.lifecycle && queue == s.queue && cleanupError == s.cleanupError
    }

    constructor ()
      ensures Shows(Initial())
    {
      lifecycle, queue, cleanupError := Created, [], None;
    }

    /** A request is accepted exactly while the VM runs or is paused. */
    method Submit(operation: Operation, id: nat, ghost s: Sys) returns (accepted: bool)
      requires Shows(s) && id == s.next
      modifies this`queue
      ensures accepted <==> Enabled(s, Step.Submit(operation))
      ensures Shows(if accepted then Apply(s, Step.Submit(operation)) else s)
    {
      if lifecycle != Running && lifecycle != Paused {
        return false;
      }
      queue := queue + [Request(id, operation)];
      return true;
    }

    /** Reject every queued request, oldest first. */
    method Cancel() returns (rejected: seq<Reply>)
      modifies this`queue
      ensures queue == [] && rejected == Rejections(old(queue))
    {
      rejected := [];
      ghost var all := queue;
      while queue != []
        invariant |rejected| <= |all| && queue == all[|rejected|..]
        invariant forall k :: 0 <= k < |rejected| ==> rejected[k] == Reply(all[k].id, false)
        decreases |queue|
      {
        rejected := rejected + [Reply(queue[0].id, false)];
        queue := queue[1..];
      }
    }

    /** Ask for the end: before a run this cancels the VM, afterwards it is final. */
    method Stop(ghost s: Sys, ghost c: nat) returns (rejected: seq<Reply>)
      requires Shows(s) && Enabled(s, CallStop(c))
      modifies this`lifecycle, this`queue
      ensures Shows(Apply(s, CallStop(c))) && Apply(s, CallStop(c)).replies == s.replies + rejected
    {
      if lifecycle == Created {
        lifecycle := Stopped;
      } else if lifecycle != Stopped {
        lifecycle := Stopping;
      }
      rejected := Cancel();
    }

    /** The stop wait: None until the VM has stopped, then the saved cleanup result. */
    method StopResult() returns (r: Option<Option<nat>>)
      ensures r == if lifecycle == Stopped then Some(cleanupError) else None
    {
      return if lifecycle != Stopped then None else Some(cleanupError);
    }

    method Begin(ghost s: Sys) returns (ok: bool)
      requires Shows(s) && Enabled(s, Step.Begin)
      modifies this`lifecycle
      ensures Shows(Apply(s, Step.Begin)) && (ok <==> Apply(s, Step.Begin).pc == Init)
    {
      if lifecycle != Created {
        return false;
      }
      lifecycle := Starting;
      return true;
    }

    method SetRunning(ghost s: Sys)
      requires Shows(s) && Enabled(s, EnterLoop)
      modifies this`lifecycle
      ensures Shows(Apply(s, EnterLoop))
    {
      if lifecycle == Starting {
        lifecycle := Running;
      }
    }

    method Next(ghost s: Sys) returns (r: Option<Request>)
      requires Shows(s) && s.pc == Loop
      modifies this`queue
      ensures r.Some? <==> Enabled(s, Take)
      ensures Shows(if r.Some? then Apply(s, Take) else s)
      ensures r.Some? ==> r == Apply(s, Take).hand
    {
      if queue == [] {
        return None;
      }
      r := Some(queue[0]);
      queue := queue[1..];
    }

    /** A served request is answered; a stop that came first keeps its lifecycle. */
    method Complete(request: Request, ok: bool, ghost s: Sys) returns (reply: Reply)
      requires Shows(s) && s.pc == Served(ok) && s.hand == Some(request)
      modifies this`lifecycle
      ensures Shows(Apply(s, Step.Complete)) && Apply(s, Step.Complete).replies == s.replies + [reply]
    {
      if ok && lifecycle != Stopping {
        lifecycle := if request.operation == Pause then Paused else Running;
      }
      return Reply(request.id, ok);
    }

    /** The VM began to end while serving: reject this request and all queued ones. */
    method RejectStopping(request: Request, ghost s: Sys) returns (rejected: seq<Reply>)
      requires Shows(s) && Enabled(s, Reject) && s.hand == Some(request)
      modifies this`lifecycle, this`queue
      ensures Shows(Apply(s, Reject)) && Apply(s, Reject).replies == s.replies + rejected
    {
      lifecycle := Stopping;
      queue := [request] + queue;
      rejected := Cancel();
    }

    /** The paused wait: whether the run loop must sleep. */
    method MustWait() returns (wait: bool)
      ensures wait <==> lifecycle == Paused && queue == []
    {
      return lifecycle == Paused && queue == [];
    }

    method Cleaning(ghost s: Sys) returns (rejected: seq<Reply>)
      requires Shows(s) && Enabled(s, Clean)
      modifies this`lifecycle, this`queue
      ensures Shows(Apply(s, Clean)) && Apply(s, Clean).replies == s.replies + rejected
    {
      lifecycle := Stopping;
      rejected := Cancel();
    }

    method CleanupResult(error: Option<nat>, ghost s: Sys)
      requires Shows(s) && Enabled(s, SaveCleanup(error))
      modifies this`cleanupError
      ensures Shows(Apply(s, SaveCleanup(error)))
    {
      cleanupError := error;
    }

    method Finish(ghost s: Sys) returns (rejected: seq<Reply>)
      requires Shows(s) && Enabled(s, Step.Finish)
      modifies this`lifecycle, this`queue
      ensures Shows(Apply(s, Step.Finish)) && Apply(s, Step.Finish).replies == s.replies + rejected
    {
      lifecycle := Stopped;
      rejected := Cancel();
    }

    /** The VM object is dropped, perhaps by a panic: stop if that has not happened yet. */
    method Dropped(panic: Option<nat>, ghost s: Sys) returns (rejected: seq<Reply>)
      requires Shows(s) && Enabled(s, Drop(panic))
      modifies this
      ensures Shows(Apply(s, Drop(panic))) && Apply(s, Drop(panic)).replies == s.replies + rejected
    {
      if lifecycle == Stopped {
        return [];
      }
      if panic.Some? {
        cleanupError := panic;
      }
      lifecycle := Stopped;
      rejected := Cancel();
    }
  }
}

/** What the control protocol promises in every interleaving: exactly one reply per
    accepted request, a lifecycle that only moves forward, no lost wakeups, stop results
    that are final, and a pause that lasts until a resume is taken. */
module ControlProtocol {
  import opened Wrappers
  import opened Control

  // ---------------------------------------------------------------------------
  // Stages

  ghost predicate StageInv(s: Sys) {
    && (s.hand.Some? <==> s.pc == InHand || s.pc.Served?)
    && (s.lifecycle !in {Running, Paused} ==> s.queue == [])
    && match s.pc
       case NotBegun => s.lifecycle in {Created, Stopped}
       case Init => s.lifecycle in {Starting, Stopping}
       case Ended => s.lifecycle in {Starting, Running, Paused, Stopping}
       case Cleaning => s.lifecycle == Stopping
       case Saved => s.lifecycle == Stopping
       case Over => s.lifecycle == Stopped
       case _ => s.lifecycle in {Running, Paused, Stopping}
  }

  lemma StepKeepsStage(s: Sys, e: Step)
    requires StageInv(s) && Enabled(s, e)
    ensures StageInv(Apply(s, e))
    ensures Rank(s.lifecycle) <= Rank(Apply(s, e).lifecycle)
  {
  }

  // ---------------------------------------------------------------------------
  // Replies

  function QueueIds(queue: seq<Request>): multiset<nat> {
    if queue == [] then multiset{} else multiset{queue[0].id} + QueueIds(queue[1..])
  }

  function ReplyIds(replies: seq<Reply>): multiset<nat> {
    if replies == [] then multiset{} else ReplyIds(replies[..|replies| - 1]) + multiset{replies[|replies| - 1].id}
  }

  /** Every id below n, once. */
  function Ids(n: nat): multiset<nat> {
    if n == 0 then multiset{} else Ids(n - 1) + multiset{n - 1}
  }

  lemma {:induction false} IdsOnce(n: nat, i: nat)
    ensures Ids(n)[i] == if i < n then 1 else 0
  {
    if n != 0 {
      IdsOnce(n - 1, i);
    }
  }

  lemma {:induction false} QueueIdsAppend(queue: seq<Request>, r: Request)
    ensures QueueIds(queue + [r]) == QueueIds(queue) + multiset{r.id}
  {
    if queue == [] {
      assert [r][1..] == [];
    } else {
      assert (queue + [r])[1..] == queue[1..] + [r];
      QueueIdsAppend(queue[1..], r);
    }
  }

  lemma ReplyIdsPush(replies: seq<Reply>, r: Reply)
    ensures ReplyIds(replies + [r]) == ReplyIds(replies) + multiset{r.id}
  {
    assert (replies + [r])[..|replies|] == replies;
  }

  /** Cancelling turns every queued request into a reply. */
  lemma {:induction false} CancelReplies(queue: seq<Request>, replies: seq<Reply>)
    ensures ReplyIds(replies + Rejections(queue)) == ReplyIds(replies) + QueueIds(queue)
    decreases |queue|
  {
    if queue == [] {
      assert replies + Rejections(queue) == replies;
    } else {
      var first := Reply(queue[0].id, false);
      assert replies + Rejections(queue) == (replies + [first]) + Rejections(queue[1..]);
      CancelReplies(queue[1..], replies + [first]);
      ReplyIdsPush(replies, first);
    }
  }

  function InHandIds(hand: Option<Request>): multiset<nat> {
    if hand.Some? then multiset{hand.value.id} else multiset{}
  }

  /** Every accepted request is queued, in hand or answered: one of the three, once. */
  ghost predicate ReplyInv(s: Sys) {
    QueueIds(s.queue) + InHandIds(s.hand) + ReplyIds(s.replies) == Ids(s.next)
  }

  /** Only the queue, the hand, the replies and the count matter. */
  ghost predicate SameLedger(s: Sys, t: Sys) {
    t.queue == s.queue && t.hand == s.hand && t.replies == s.replies && t.next == s.next
  }

  lemma CancelKeepsReplies(s: Sys, t: Sys)
    requires ReplyInv(s) && t.queue == [] && t.hand == s.hand && t.next == s.next
    requires t.replies == s.replies + Rejections(s.queue)
    ensures ReplyInv(t)
  {
    CancelReplies(s.queue, s.replies);
    assert QueueIds(t.queue) == multiset{};
  }

  lemma TakeKeepsReplies(s: Sys)
    requires ReplyInv(s) && s.queue != [] && s.hand == None
    ensures ReplyInv(s.(hand := Some(s.queue[0]), queue := s.queue[1..]))
  {
  }

  /** Putting the request in hand back at the front of the queue. */
  lemma PutBackKeepsReplies(s: Sys)
    requires ReplyInv(s) && s.hand.Some?
    ensures ReplyInv(s.(hand := None, queue := [s.hand.value] + s.queue))
  {
    assert ([s.hand.value] + s.queue)[1..] == s.queue;
  }

  lemma AnswerKeepsReplies(s: Sys, ok: bool)
    requires ReplyInv(s) && s.hand.Some?
    ensures ReplyInv(s.(hand := None, replies := s.replies + [Reply(s.hand.value.id, ok)]))
  {
    ReplyIdsPush(s.replies, Reply(s.hand.value.id, ok));
  }

  lemma AcceptKeepsReplies(s: Sys, op: Operation)
    requires ReplyInv(s)
    ensures ReplyInv(s.(queue := s.queue + [Request(s.next, op)], next := s.next + 1))
  {
    QueueIdsAppend(s.queue, Request(s.next, op));
  }

  lemma SameLedgerKeepsReplies(s: Sys, t: Sys)
    requires ReplyInv(s) && SameLedger(s, t)
    ensures ReplyInv(t)
  {
  }

  /** Steps that move requests one at a time. */
  predicate MovesOne(e: Step) {
    e.Submit? || e.Take? || e.Complete?
  }

  /** Steps that cancel the queue. */
  predicate Cancels(s: Sys, e: Step) {
    e.CallStop? || e.FailNew? || e.Clean? || e.Finish? || (e.Drop? && s.lifecycle != Stopped)
  }

  lemma CancelsLedger(s: Sys, e: Step)
    requires Enabled(s, e) && Cancels(s, e)
    ensures var t := Apply(s, e);
            t.queue == [] && t.hand == s.hand && t.next == s.next && t.replies == s.replies + Rejections(s.queue)
  {
  }

  lemma LeavesLedger(s: Sys, e: Step)
    requires Enabled(s, e) && !Cancels(s, e) && !MovesOne(e) && !e.Reject?
    ensures SameLedger(s, Apply(s, e))
  {
  }

  lemma MoveKeepsReplies(s: Sys, e: Step)
    requires StageInv(s) && ReplyInv(s) && Enabled(s, e) && MovesOne(e)
    ensures ReplyInv(Apply(s, e))
  {
    if e.Submit? {
      AcceptKeepsReplies(s, e.operation);
      SameLedgerKeepsReplies(s.(queue := s.queue + [Request(s.next, e.operation)], next := s.next + 1), Apply(s, e));
    } else if e.Take? {
      TakeKeepsReplies(s);
      SameLedgerKeepsReplies(s.(hand := Some(s.queue[0]), queue := s.queue[1..]), Apply(s, e));
    } else {
      AnswerKeepsReplies(s, s.pc.ok);
      SameLedgerKeepsReplies(s.(hand := None, replies := s.replies + [Reply(s.hand.value.id, s.pc.ok)]), Apply(s, e));
    }
  }

  lemma RejectKeepsReplies(s: Sys)
    requires ReplyInv(s) && Enabled(s, Reject)
    ensures ReplyInv(Apply(s, Reject))
  {
    PutBackKeepsReplies(s);
    CancelKeepsReplies(s.(hand := None, queue := [s.hand.value] + s.queue), Apply(s, Reject));
  }

  lemma StepKeepsReplies(s: Sys, e: Step)
    requires StageInv(s) && ReplyInv(s) && Enabled(s, e)
    ensures ReplyInv(Apply(s, e))
  {
    if MovesOne(e) {
      MoveKeepsReplies(s, e);
    } else if e.Reject? {
      RejectKeepsReplies(s);
    } else if Cancels(s, e) {
      CancelsLedger(s, e);
      CancelKeepsReplies(s, Apply(s, e));
    } else {
      LeavesLedger(s, e);
      SameLedgerKeepsReplies(s, Apply(s, e));
    }
  }

  // ---------------------------------------------------------------------------
  // Sleepers and stop

  ghost predicate SleepInv(s: Sys) {
    && (s.runAsleep ==> s.pc == Waiting && s.lifecycle == Paused && s.queue == [])
    && (forall c :: c in s.asleep ==> c in s.stoppers && s.lifecycle != Stopped)
    && (forall c :: c in s.returned ==> s.lifecycle == Stopped && s.returned[c] == s.cleanupError)
  }

  lemma StepKeepsSleep(s: Sys, e: Step)
    requires StageInv(s) && SleepInv(s) && Enabled(s, e)
    ensures SleepInv(Apply(s, e))
  {
  }

  // ---------------------------------------------------------------------------
  // The pause

  /** The run loop's flag is the VM barrier, except while a request is being served. */
  ghost predicate PauseInv(s: Sys) {
    && (s.pc in {Loop, Waiting, InHand} ==> s.barrier == s.paused && (s.lifecycle == Paused ==> s.paused))
    && (s.pc.Served? && s.pc.ok && s.hand.Some? ==> s.barrier == (s.hand.value.operation == Pause))
    && (s.pc == Init ==> !s.barrier && !s.paused)
    && (s.pc == NotBegun ==> !s.barrier && !s.paused)
  }

  lemma StepKeepsPause(s: Sys, e: Step)
    requires StageInv(s) && PauseInv(s) && Enabled(s, e)
    ensures PauseInv(Apply(s, e))
  {
  }

  // ---------------------------------------------------------------------------
  // Every run

  ghost predicate Inv(s: Sys) {
    StageInv(s) && ReplyInv(s) && SleepInv(s) && PauseInv(s)
  }

  lemma StepKeepsInv(s: Sys, e: Step)
    requires Inv(s) && Enabled(s, e)
    ensures Inv(Apply(s, e))
  {
    StepKeepsStage(s, e);
    StepKeepsReplies(s, e);
    StepKeepsSleep(s, e);
    StepKeepsPause(s, e);
  }

  lemma {:induction false} EveryRun(es: seq<Step>, k: nat)
    requires k <= |es|
    ensures Inv(After(Initial(), es, k))
  {
    if k != 0 {
      EveryRun(es, k - 1);
      var p := After(Initial(), es, k - 1);
      if Enabled(p, es[k - 1]) {
        StepKeepsInv(p, es[k - 1]);
      }
    }
  }

  /** Queued, in hand or answered: exactly one of the three, exactly once; and answered
      once the run thread is over. */
  ghost predicate OnePlace(s: Sys, id: nat) {
    && QueueIds(s.queue)[id] + InHandIds(s.hand)[id] + ReplyIds(s.replies)[id] == 1
    && (s.pc == Over ==> ReplyIds(s.replies)[id] == 1)
  }

  lemma LedgerHasOnePlace(s: Sys, id: nat)
    requires StageInv(s) && ReplyInv(s) && id < s.next
    ensures OnePlace(s, id)
  {
    IdsOnce(s.next, id);
    assert (QueueIds(s.queue) + InHandIds(s.hand) + ReplyIds(s.replies))[id] == 1;
  }

  /** In every run each accepted request gets exactly one reply: never two, and one by
      the time the run thread is over. */
  lemma ExactlyOneReply(es: seq<Step>, k: nat, id: nat)
    requires k <= |es| && id < After(Initial(), es, k).next
    ensures OnePlace(After(Initial(), es, k), id)
  {
    EveryRun(es, k);
    LedgerHasOnePlace(After(Initial(), es, k), id);
  }

  /** The queue is empty whenever the VM is neither running nor paused. */
  lemma QueueEmptyOutsideRunning(es: seq<Step>, k: nat)
    requires k <= |es| && After(Initial(), es, k).lifecycle !in {Running, Paused}
    ensures After(Initial(), es, k).queue == []
  {
    EveryRun(es, k);
  }

  lemma {:induction false} LifecycleMovesForward(es: seq<Step>, k: nat, m: nat)
    requires k <= m <= |es|
    ensures Rank(After(Initial(), es, k).lifecycle) <= Rank(After(Initial(), es, m).lifecycle)
    decreases m
  {
    if k < m {
      LifecycleMovesForward(es, k, m - 1);
      EveryRun(es, m - 1);
      var p := After(Initial(), es, m - 1);
      if Enabled(p, es[m - 1]) {
        StepKeepsStage(p, es[m - 1]);
      }
    }
  }

  /** A sleeping run loop has nothing to do, and a sleeping stop call's VM has not stopped. */
  lemma NoLostWakeup(es: seq<Step>, k: nat)
    requires k <= |es|
    ensures var s := After(Initial(), es, k);
            && (s.runAsleep ==> s.lifecycle == Paused && s.queue == [])
            && (forall c :: c in s.asleep ==> s.lifecycle != Stopped)
  {
    EveryRun(es, k);
  }

  /** A stop call has returned with this cleanup result, and the VM has stopped. */
  ghost predicate StoppedWith(s: Sys, c: nat, result: Option<nat>) {
    s.lifecycle == Stopped && c in s.returned && s.returned[c] == result == s.cleanupError
  }

  lemma StepKeepsStopped(s: Sys, e: Step, c: nat, result: Option<nat>)
    requires StageInv(s) && Enabled(s, e) && StoppedWith(s, c, result)
    ensures StoppedWith(Apply(s, e), c, result)
  {
  }

  /** A stop call returns only once the VM has stopped, and its result is the saved
      cleanup result, then and ever after. */
  lemma {:induction false} StopResultIsFinal(es: seq<Step>, k: nat, m: nat, c: nat)
    requires k <= m <= |es| && c in After(Initial(), es, k).returned
    ensures StoppedWith(After(Initial(), es, m), c, After(Initial(), es, k).returned[c])
    decreases m
  {
    if k == m {
      EveryRun(es, k);
    } else {
      StopResultIsFinal(es, k, m - 1, c);
      EveryRun(es, m - 1);
      var p := After(Initial(), es, m - 1);
      if Enabled(p, es[m - 1]) {
        StepKeepsStopped(p, es[m - 1], c, After(Initial(), es, k).returned[c]);
      }
    }
  }

  /** Paused, and no resume in hand. */
  ghost predicate Holding(s: Sys) {
    s.barrier && s.paused && s.pc !in {NotBegun, Init} && (s.hand.Some? ==> s.hand.value.operation == Pause)
  }

  predicate TakesResume(s: Sys, e: Step) {
    e.Take? && s.pc == Loop && s.queue != [] && s.queue[0].operation == Resume
  }

  lemma StepKeepsHolding(s: Sys, e: Step)
    requires StageInv(s) && Holding(s) && Enabled(s, e) && !TakesResume(s, e)
    ensures Holding(Apply(s, e)) && e != Work
  {
  }

  /** No step of the schedule from k to m takes a resume. */
  ghost predicate NoResumeTaken(es: seq<Step>, k: nat, m: nat)
    requires k <= m <= |es|
    decreases m
  {
    k == m || (NoResumeTaken(es, k, m - 1) && !TakesResume(After(Initial(), es, m - 1), es[m - 1]))
  }

  /** From the Ok reply to a pause until a resume is taken from the queue, the VM stays
      held and no device is processed. */
  lemma {:induction false} PauseLastsUntilResume(es: seq<Step>, k: nat, m: nat)
    requires k <= m <= |es| && Holding(After(Initial(), es, k)) && NoResumeTaken(es, k, m)
    ensures Holding(After(Initial(), es, m)) && !Enabled(After(Initial(), es, m), Work)
    decreases m
  {
    if k < m {
      PauseLastsUntilResume(es, k, m - 1);
      EveryRun(es, m - 1);
      var p := After(Initial(), es, m - 1);
      if Enabled(p, es[m - 1]) {
        StepKeepsHolding(p, es[m - 1]);
      }
    }
  }

  /** An Ok reply to a pause leaves the VM held. */
  lemma PauseReplyHolds(s: Sys)
    requires Inv(s) && s.pc == Served(true) && s.hand.Some? && s.hand.value.operation == Pause
    ensures Holding(Apply(s, Complete)) && Apply(s, Complete).replies == s.replies + [Reply(s.hand.value.id, true)]
  {
  }
}

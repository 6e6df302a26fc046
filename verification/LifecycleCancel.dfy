/** Cancelling a handler whose client is gone: at most once, never after it answered, and never forgotten. */
module LifecycleCancel {
  import opened Util
  import opened Lifecycle

  /** Its Responder exists and has not emptied the cell. */
  predicate Cellular(g: Stage) {
    g.Attached? || g.Recalled? || g.Live? || g.Releasing?
  }

  /** Given to a worker: its client's leaving can be noticed. */
  predicate GivenToWorker(g: Stage) {
    WorkerOf(g).Some? || g.Gone?
  }

  ghost predicate Inv(q: Request) {
    && Flagged(q)
    && (q.task ==> q.cancellable && Cellular(q.stage))
    && (q.cancellable && Cellular(q.stage) ==> q.task || q.cancels == 1)
    && q.cancels <= 1
    && (q.cancels == 1 ==> !q.task && q.cell.ABANDONED?)
    && (q.cell.ABANDONED? <==> !q.notice.Unsent?)
    && (q.stage.Created? || q.stage.Attached? || q.stage.Recalled? ==> q.cancellable)
    && (q.stage.Recalled? ==> q.cell.ABANDONED?)
    && (q.cell.ABANDONED? && q.task ==> !q.notice.Spent? || q.stage.Attached? || q.stage.Recalled?)
    && (q.cancels == 1 ==> Cellular(q.stage) || q.stage.Released?)
    && (q.armed || !q.cell.RUNNING? ==> q.cancellable && GivenToWorker(q.stage))
    && (!q.reply.NotYet? ==> q.stage.Live? || q.stage.Releasing? || q.stage.Released?)
    && (q.cancellable && !q.reply.NotYet? ==> !q.cell.RUNNING?)
    && (q.cancellable && (q.stage.Released? || (q.stage.Releasing? && q.stage.next.Forgotten?)) ==> !q.cell.RUNNING?)
    && (q.stage.Releasing? && (q.stage.next.Answered? || q.stage.next.Forgotten?) ==> q.cancellable)
  }

  lemma StepKeeps(q: Request, a: Action, busy: int, workers: nat)
    requires Inv(q) && Ready(q, a, workers)
    ensures Inv(Next(q, a, busy, workers).request)
  {}

  ghost predicate AllInv(s: State) {
    WellFormed(s) && forall r :: 0 <= r < |s.requests| ==> Inv(s.requests[r])
  }

  lemma {:induction false} RunKeeps(s: State, run: seq<(nat, Action)>)
    requires AllInv(s) && Exec(s, run).Some?
    ensures AllInv(Exec(s, run).value)
    decreases |run|
  {
    if run != [] {
      var (r, a) := run[0];
      StepKeeps(s.requests[r], a, Busy(s, s.requests[r]), |s.inflight|);
      StepKeepsPlace(s, r, a);
      RunKeeps(Apply(s, r, a), run[1..]);
    }
  }

  lemma ReachableHolds(s: State)
    requires Reachable(s)
    ensures AllInv(s)
  {
    var s0, run :| Initial(s0) && Exec(s0, run) == Some(s);
    forall r | 0 <= r < |s0.requests| ensures Inv(s0.requests[r]) {
      assert s0.requests[r] == Fresh(s0.requests[r].conn, s0.requests[r].cancellable);
    }
    RunKeeps(s0, run);
  }

  /** Over every run a task is cancelled at most once, and only a request that was abandoned before it answered. */
  lemma CancelledAtMostOnce(s: State, r: nat)
    requires Reachable(s) && r < |s.requests|
    ensures s.requests[r].cancels <= 1
    ensures s.requests[r].cell.ANSWERED? ==> s.requests[r].cancels == 0
  {
    ReachableHolds(s);
  }

  /**
   An answered cell stays answered, so no later step cancels its task: a client leaving after the reply
   stops nothing.
   */
  lemma {:induction false} AnsweredIsSafe(s: State, run: seq<(nat, Action)>, r: nat)
    requires AllInv(s) && Exec(s, run).Some? && r < |s.requests| && s.requests[r].cell.ANSWERED?
    ensures |Exec(s, run).value.requests| == |s.requests|
    ensures Exec(s, run).value.requests[r].cell.ANSWERED? && Exec(s, run).value.requests[r].cancels == 0
    decreases |run|
  {
    if run != [] {
      var (i, a) := run[0];
      StepKeeps(s.requests[i], a, Busy(s, s.requests[i]), |s.inflight|);
      StepKeepsPlace(s, i, a);
      AnsweredIsSafe(Apply(s, i, a), run[1..], r);
    }
  }

  /**
   An abandoned request whose task is still in the cell is not forgotten: a notice is queued, about
   to be queued or in the callback's hand, or the attaching callback is about to look again.
   */
  lemma AbandonedIsNoticed(s: State, r: nat)
    requires Reachable(s) && r < |s.requests|
    requires s.requests[r].cell.ABANDONED? && s.requests[r].task
    ensures var q := s.requests[r];
      q.notice.Due? || q.notice.Queued? || q.notice.InHand? || q.stage.Attached? || q.stage.Recalled?
  {
    ReachableHolds(s);
  }

  /** Once its notice has been handled, an abandoned request whose handler runs has been cancelled exactly once. */
  lemma AbandonedIsCancelled(s: State, r: nat)
    requires Reachable(s) && r < |s.requests|
    requires s.requests[r].cell.ABANDONED? && s.requests[r].notice.Spent? && s.requests[r].stage.Live?
    ensures s.requests[r].cancels == 1 && !s.requests[r].task
  {
    ReachableHolds(s);
  }

  /**
   A task is in the cell only while an unreleased Responder holds that cell, so no tokio thread drops the
   last reference to one.
   */
  lemma TaskHasItsResponder(s: State, r: nat)
    requires Reachable(s) && r < |s.requests| && s.requests[r].task
    ensures Cellular(s.requests[r].stage)
    ensures !s.requests[r].stage.Released? && !s.requests[r].stage.Gone?
  {
    ReachableHolds(s);
  }

  /** Abandoned before the callback looked at it. */
  predicate LeftInQueue(q: Request) {
    && q.cancellable && q.cell.ABANDONED?
    && (q.stage.Waiting? || q.stage.Popped? || q.stage.Skipping? || q.stage.Gone?)
  }

  /** A request whose client left while it waited in the queue is never started, whatever happens next. */
  lemma {:induction false} NeverStarted(s: State, run: seq<(nat, Action)>, r: nat)
    requires WellFormed(s) && Exec(s, run).Some? && r < |s.requests| && LeftInQueue(s.requests[r])
    ensures |Exec(s, run).value.requests| == |s.requests| && LeftInQueue(Exec(s, run).value.requests[r])
    decreases |run|
  {
    if run != [] {
      var (i, a) := run[0];
      StepKeepsPlace(s, i, a);
      if i == r && a.Enqueue? { assert false; }
      NeverStarted(Apply(s, i, a), run[1..], r);
    }
  }
}

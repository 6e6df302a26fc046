/**
 No wakeup of a socket's handler is missed, and every callback is handed over exactly once: a close
 callback always, a waiter unless a later one took its place.
 */
module SocketCallbacks {
  import opened Util
  import opened Sockets

  // ----- Nothing is missed -----

  predicate BeforeWake(m: Mark) {
    m.Store? || m.Wake?
  }

  predicate BeforeSweep(m: Mark) {
    m.Store? || m.Wake? || m.Hand? || m.Sweep?
  }

  /** Someone is about to take the waiter because the socket closed. */
  predicate WakeIsDue(s: State) {
    || s.tokio == Closing(Wake)
    || s.worker.Installed? || s.worker.Checked? || s.worker.Ready?
    || (s.worker.Again? && BeforeWake(s.worker.mark))
  }

  /** A waiter stands beside an event only while someone is about to take it. */
  predicate NoMissedWake(s: State) {
    && (s.shared.waiter.Some? && s.shared.incoming != [] ==>
          s.tokio.Landed? || s.worker.Installed? || s.worker.Ready?)
    && (s.shared.waiter.Some? && s.shared.closed ==> WakeIsDue(s))
  }

  /** Close callbacks stand on a closed socket only while someone is about to take them. */
  predicate NoMissedClose(s: State) {
    s.shared.closed && s.shared.closers != [] ==>
      || (s.tokio.Closing? && BeforeSweep(s.tokio.mark) && !s.tokio.mark.Store?)
      || s.worker.Rechecking?
      || (s.worker.Again? && BeforeSweep(s.worker.mark))
  }

  /** Who stores `closed` first, and when the queue is known. */
  predicate Shape(s: State) {
    && (s.shared.bound <==> !s.tokio.Unbound?)
    && (s.shared.closed <==> s.tokio.Closing? && !s.tokio.mark.Store?)
    && (s.worker.Again? ==> s.shared.closed)
    && (s.past.told != [] ==> s.shared.closed)
    && s.past.dropped == 0
    && s.past.sent == s.past.got + s.shared.incoming
  }

  predicate Inv(s: State) {
    Shape(s) && NoMissedWake(s) && NoMissedClose(s)
  }

  lemma TokioKeeps(s: State, a: Label)
    requires Inv(s) && Enabled(s, a) && (a.Bind? || a.Frame? || a.Shut? || a.TokioStep?)
    ensures Inv(Apply(s, a))
  {
  }

  lemma LoopKeeps(s: State, a: Label)
    requires Inv(s) && Enabled(s, a) && (a.Notify? || a.Receive? || a.OnClose? || a.LoopStep?)
    ensures Inv(Apply(s, a))
  {
  }

  lemma {:induction false} RunKeeps(s: State, run: seq<Label>)
    requires Inv(s) && Placed(s) && Exec(s, run).Some?
    ensures Inv(Exec(s, run).value) && Placed(Exec(s, run).value)
    decreases |run|
  {
    if run != [] {
      if run[0].Bind? || run[0].Frame? || run[0].Shut? || run[0].TokioStep? {
        TokioKeeps(s, run[0]);
      } else {
        LoopKeeps(s, run[0]);
      }
      StepPlaces(s, run[0]);
      RunKeeps(Apply(s, run[0]), run[1..]);
    }
  }

  lemma ReachableHolds(s: State)
    requires Reachable(s)
    ensures Inv(s) && Placed(s)
  {
    var run :| Exec(Initial(), run) == Some(s);
    assert forall x: nat :: Waiters(Initial(), x) == 0 && Closers(Initial(), x) == 0;
    RunKeeps(Initial(), run);
  }

  // ----- Each in one place -----

  function Is(o: Option<nat>, x: nat): nat {
    if o == Some(x) then 1 else 0
  }

  function Occurs(list: seq<nat>, x: nat): nat {
    if list == [] then 0 else Occurs(list[..|list| - 1], x) + Is(Some(list[|list| - 1]), x)
  }

  lemma OccursMore(list: seq<nat>, last: nat, x: nat)
    ensures Occurs(list + [last], x) == Occurs(list, x) + Is(Some(last), x)
  {
    assert (list + [last])[..|list|] == list;
  }

  lemma {:induction false} OccursFirst(list: seq<nat>, x: nat)
    requires list != []
    ensures Occurs(list, x) == Is(Some(list[0]), x) + Occurs(list[1..], x)
  {
    if |list| > 1 {
      OccursFirst(list[..|list| - 1], x);
      assert list[..|list| - 1][1..] == list[1..][..|list| - 2];
    }
  }

  lemma {:induction false} OccursIn(list: seq<nat>, x: nat)
    ensures x in list <==> Occurs(list, x) > 0
  {
    if list != [] {
      OccursIn(list[..|list| - 1], x);
      assert list == list[..|list| - 1] + [list[|list| - 1]];
    }
  }

  /** Waiter `x` and close callback `x` in the hands of someone inside `mark_closed`. */
  function MarkWaiter(m: Mark, x: nat): nat {
    if m.Hand? then Is(Some(m.waiter), x) else 0
  }

  function MarkCloser(m: Mark, x: nat): nat {
    if m.Tell? then Occurs(m.list, x) else 0
  }

  function TokioWaiter(t: Tokio, x: nat): nat {
    match t case Giving(waiter) => Is(Some(waiter), x) case Closing(m) => MarkWaiter(m, x) case _ => 0
  }

  function TokioCloser(t: Tokio, x: nat): nat {
    match t case Closing(m) => MarkCloser(m, x) case _ => 0
  }

  function LoopWaiter(l: Loop, x: nat): nat {
    match l case Firing(waiter) => Is(Some(waiter), x) case Again(m) => MarkWaiter(m, x) case _ => 0
  }

  function LoopCloser(l: Loop, x: nat): nat {
    match l
    case Asking(closer) => Is(Some(closer), x)
    case Adding(closer) => Is(Some(closer), x)
    case Again(m) => MarkCloser(m, x)
    case _ => 0
  }

  /** Waiter `x` in the slot or scheduled; close callback `x` in the list or scheduled. */
  function LooseWaiter(shared: Shared, past: Past, x: nat): nat {
    Is(shared.waiter, x) + Occurs(past.woken, x)
  }

  function LooseCloser(shared: Shared, past: Past, x: nat): nat {
    Occurs(shared.closers, x) + Occurs(past.told, x)
  }

  /** In how many places waiter `x` is, and close callback `x`. */
  function Waiters(s: State, x: nat): nat {
    LooseWaiter(s.shared, s.past, x) + TokioWaiter(s.tokio, x) + LoopWaiter(s.worker, x) + Occurs(s.past.replaced, x)
  }

  function Closers(s: State, x: nat): nat {
    LooseCloser(s.shared, s.past, x) + TokioCloser(s.tokio, x) + LoopCloser(s.worker, x)
  }

  ghost predicate Placed(s: State) {
    && (forall x: nat :: Waiters(s, x) == if x < s.past.made then 1 else 0)
    && (forall x: nat :: Closers(s, x) == if x < s.past.asked then 1 else 0)
  }

  /** A step inside `mark_closed` passes callbacks on and loses none. */
  lemma MarkPlaces(s: State, m: Mark, x: nat)
    requires s.shared.bound && !m.Over?
    ensures var n := MarkStep(s, m);
      && LooseWaiter(n.shared, n.past, x) + MarkWaiter(n.mark, x) == LooseWaiter(s.shared, s.past, x) + MarkWaiter(m, x)
      && LooseCloser(n.shared, n.past, x) + MarkCloser(n.mark, x) == LooseCloser(s.shared, s.past, x) + MarkCloser(m, x)
      && n.past.replaced == s.past.replaced && n.past.made == s.past.made && n.past.asked == s.past.asked
  {
    if m.Hand? {
      OccursMore(s.past.woken, m.waiter, x);
    } else if m.Tell? && m.list != [] {
      OccursFirst(m.list, x);
      OccursMore(s.past.told, m.list[0], x);
    }
  }

  lemma TokioPlaces(s: State, a: Label, x: nat)
    requires Shape(s) && Enabled(s, a) && (a.Bind? || a.Frame? || a.Shut? || a.TokioStep?)
    ensures var t := Apply(s, a);
      Waiters(t, x) == Waiters(s, x) && Closers(t, x) == Closers(s, x) && t.past.made == s.past.made
        && t.past.asked == s.past.asked
  {
    if a.TokioStep? {
      if s.tokio.Closing? {
        MarkPlaces(s, s.tokio.mark, x);
      } else if s.tokio.Giving? {
        OccursMore(s.past.woken, s.tokio.waiter, x);
      }
    }
  }

  lemma LoopMarks(s: State, x: nat)
    requires Shape(s) && s.worker.Again?
    ensures var t := Apply(s, LoopStep);
      Waiters(t, x) == Waiters(s, x) && Closers(t, x) == Closers(s, x) && t.past.made == s.past.made
        && t.past.asked == s.past.asked
  {
    if !s.worker.mark.Over? {
      MarkPlaces(s, s.worker.mark, x);
    }
  }

  /** `notify` up to its second look, taking the waiter back included, and a receive. */
  lemma LookingPlaces(s: State, a: Label, x: nat)
    requires Shape(s) && Enabled(s, a) && (a.Receive? || a.LoopStep?) && !s.worker.Again?
    requires a.LoopStep? ==> !s.worker.Firing? && !s.worker.Asking? && !s.worker.Adding?
    ensures var t := Apply(s, a);
      Waiters(t, x) == Waiters(s, x) && Closers(t, x) == Closers(s, x) && t.past.made == s.past.made
        && t.past.asked == s.past.asked
  {
  }

  lemma GivingPlaces(s: State, x: nat)
    requires Shape(s) && (s.worker.Firing? || s.worker.Asking? || s.worker.Adding?)
    ensures var t := Apply(s, LoopStep);
      Waiters(t, x) == Waiters(s, x) && Closers(t, x) == Closers(s, x) && t.past.made == s.past.made
        && t.past.asked == s.past.asked
  {
    match s.worker
    case Firing(waiter) => OccursMore(s.past.woken, waiter, x);
    case Asking(closer) => OccursMore(s.past.told, closer, x);
    case Adding(closer) => OccursMore(s.shared.closers, closer, x);
  }

  lemma LoopPlaces(s: State, a: Label, x: nat)
    requires Shape(s) && Enabled(s, a) && (a.Receive? || a.LoopStep?) && !s.worker.Again?
    ensures var t := Apply(s, a);
      Waiters(t, x) == Waiters(s, x) && Closers(t, x) == Closers(s, x) && t.past.made == s.past.made
        && t.past.asked == s.past.asked
  {
    if a.LoopStep? && (s.worker.Firing? || s.worker.Asking? || s.worker.Adding?) {
      GivingPlaces(s, x);
    } else {
      LookingPlaces(s, a, x);
    }
  }

  lemma AskingPlaces(s: State, a: Label, x: nat)
    requires Enabled(s, a) && (a.Notify? || a.OnClose?)
    ensures var t := Apply(s, a);
      && Waiters(t, x) == Waiters(s, x) + (if a.Notify? then Is(Some(s.past.made), x) else 0)
      && Closers(t, x) == Closers(s, x) + (if a.OnClose? then Is(Some(s.past.asked), x) else 0)
  {
    if a.Notify? && s.shared.waiter.Some? {
      OccursMore(s.past.replaced, s.shared.waiter.value, x);
    } else {
      assert s.past.replaced + [] == s.past.replaced;
    }
  }

  lemma StepPlaces(s: State, a: Label)
    requires Shape(s) && Placed(s) && Enabled(s, a)
    ensures Placed(Apply(s, a))
  {
    var t := Apply(s, a);
    forall x: nat
      ensures Waiters(t, x) == if x < t.past.made then 1 else 0
      ensures Closers(t, x) == if x < t.past.asked then 1 else 0
    {
      if a.Notify? || a.OnClose? {
        AskingPlaces(s, a, x);
      } else if a.LoopStep? && s.worker.Again? {
        LoopMarks(s, x);
      } else if a.Receive? || a.LoopStep? {
        LoopPlaces(s, a, x);
      } else {
        TokioPlaces(s, a, x);
      }
    }
  }

  // ----- What follows -----

  predicate AtRest(s: State) {
    s.worker.Idle? && (s.tokio.Driving? || (s.tokio.Closing? && s.tokio.mark.Over?))
  }

  /**
   A close callback is scheduled exactly once, after the socket closed and never before: on any order of
   `on_close` and the closing, once both threads are at rest every callback given has been scheduled once.
   */
  lemma CloseCallbacksOnce(s: State, closer: nat)
    requires Reachable(s) && closer < s.past.asked
    ensures s.past.dropped == 0 && Occurs(s.past.told, closer) <= 1
    ensures closer in s.past.told ==> s.shared.closed
    ensures AtRest(s) ==> (Occurs(s.past.told, closer) == 1 <==> s.shared.closed)
  {
    ReachableHolds(s);
    OccursIn(s.past.told, closer);
    assert Closers(s, closer) == 1;
  }

  /** A waiter is scheduled at most once; at rest it has been, unless it was replaced or nothing has happened yet. */
  lemma WaitersOnce(s: State, waiter: nat)
    requires Reachable(s) && waiter < s.past.made
    ensures Occurs(s.past.woken, waiter) + Occurs(s.past.replaced, waiter) <= 1
    ensures AtRest(s) && waiter !in s.past.woken && waiter !in s.past.replaced ==>
      s.shared.waiter == Some(waiter) && s.shared.incoming == [] && !s.shared.closed
  {
    ReachableHolds(s);
    OccursIn(s.past.woken, waiter);
    OccursIn(s.past.replaced, waiter);
    assert Waiters(s, waiter) == 1;
  }

  /** Frames reach the handler whole and in order. */
  lemma FramesInOrder(s: State)
    requires Reachable(s)
    ensures s.past.got + s.shared.incoming == s.past.sent
  {
    ReachableHolds(s);
  }

  /** Nobody asks again while a waiter stands, as a handler that awaits each callback does not. */
  ghost predicate OneAtATime(s: State, run: seq<Label>)
    requires Exec(s, run).Some?
    decreases |run|
  {
    run == [] || ((run[0].Notify? ==> s.shared.waiter.None?) && OneAtATime(Apply(s, run[0]), run[1..]))
  }

  /** The slot holds one: waiters are replaced in a run exactly when a second is left while the first stands. */
  lemma {:induction false} ReplacedIff(s: State, run: seq<Label>)
    requires Exec(s, run).Some?
    ensures Exec(s, run).value.past.replaced == s.past.replaced <==> OneAtATime(s, run)
    ensures |Exec(s, run).value.past.replaced| >= |s.past.replaced|
    decreases |run|
  {
    if run != [] {
      var t := Apply(s, run[0]);
      ReplacedIff(t, run[1..]);
      assert t.past.replaced == s.past.replaced || |t.past.replaced| == |s.past.replaced| + 1;
    }
  }

  // ----- Before the worker is known -----

  /** The newest waiter stands, close callbacks wait, and nothing has come or been scheduled. */
  predicate Untold(s: State) {
    && s.tokio.Unbound? && s.shared.incoming == [] && !s.shared.closed
    && s.shared.waiter == (if s.past.made == 0 then None else Some(s.past.made - 1))
    && s.past.woken == [] && s.past.told == [] && s.past.dropped == 0
    && (s.worker.Idle? || s.worker.Installed? || s.worker.Checked? || s.worker.Asking? || s.worker.Adding?
        || s.worker.Rechecking?)
    && (forall i :: 0 <= i < |s.shared.closers| ==> s.shared.closers[i] == i)
    && s.past.asked == |s.shared.closers| + (if s.worker.Asking? || s.worker.Adding? then 1 else 0)
    && (s.worker.Asking? || s.worker.Adding? ==> s.worker.closer == |s.shared.closers|)
  }

  lemma {:induction false} UntoldTillBound(s: State, run: seq<Label>)
    requires Exec(s, run).Some? && (!s.shared.bound ==> Untold(s))
    ensures !Exec(s, run).value.shared.bound ==> Untold(Exec(s, run).value)
    decreases |run|
  {
    if run != [] {
      UntoldTillBound(Apply(s, run[0]), run[1..]);
    }
  }

  /** A handler may leave a waiter, or a close callback, before the socket knows its worker. */
  lemma WaiterMayComeFirst()
    ensures exists s :: Reachable(s) && !s.shared.bound && s.shared.waiter.Some?
    ensures exists s :: Reachable(s) && !s.shared.bound && s.shared.closers != []
  {
    var s0 := Initial();
    var s1 := Apply(s0, Notify);
    assert Exec(s0, [Notify]) == Exec(s1, []);
    assert Reachable(s1) && !s1.shared.bound && s1.shared.waiter.Some?;
    var t1 := Apply(s0, OnClose);
    var t2, t3 := Apply(t1, LoopStep), Apply(Apply(t1, LoopStep), LoopStep);
    assert [LoopStep, LoopStep][1..] == [LoopStep] && [LoopStep][1..] == [];
    assert [OnClose, LoopStep, LoopStep][1..] == [LoopStep, LoopStep];
    assert Exec(t2, [LoopStep]) == Some(t3) && Exec(t1, [LoopStep, LoopStep]) == Some(t3);
    assert Exec(s0, [OnClose, LoopStep, LoopStep]) == Some(t3);
    assert Reachable(t3) && !t3.shared.bound && t3.shared.closers != [];
  }

  /**
   What makes that harmless: until the worker is known nobody schedules anything, so nothing is dropped. The
   last waiter left stands in the slot and every close callback given is in the list or being put there.
   */
  lemma NobodyWakesUnbound(s: State)
    requires Reachable(s) && !s.shared.bound
    ensures s.past.woken == [] && s.past.told == [] && s.past.dropped == 0
    ensures s.past.made > 0 ==> s.shared.waiter == Some(s.past.made - 1)
    ensures forall closer: nat :: closer < s.past.asked ==>
      closer in s.shared.closers || s.worker == Asking(closer) || s.worker == Adding(closer)
  {
    var run :| Exec(Initial(), run) == Some(s);
    UntoldTillBound(Initial(), run);
    forall closer: nat | closer < s.past.asked && closer < |s.shared.closers| ensures closer in s.shared.closers {
      assert s.shared.closers[closer] == closer;
    }
  }
}

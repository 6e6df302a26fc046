/**
 How long a queued item waits: a measure that everyone's steps respect and the step waited for shortens.
 A callback or a notice may wait for a pass to end, and what keeps a pass going is exactly requests whose
 client left while they were queued.
 */
module DispatchFairness {
  import opened Util
  import opened Dispatch
  import opened DispatchLoop
  import Wake = DispatchWake

  // ----- Between passes -----

  predicate IsStamped(p: Producer) {
    p.Stamped?
  }

  /** Steps before the loop is told to call the callback again. */
  ghost function Nap(s: State): nat {
    if s.bytes > 0 then 1
    else if Count(s.producers, IsStamped) > 0 then 2
    else if Count(s.producers, Wake.IsFlipped) > 0 then 3
    else 4
  }

  /** The step that is waited for: the callback's, or while it sleeps that of the thread whose wake is furthest. */
  ghost predicate Helps(l: Live, act: Act) {
    var s := l.base;
    if !s.drainer.Asleep? then OfCallback(act)
    else if s.bytes > 0 then act == Thread(Drain)
    else if Count(s.producers, IsStamped) > 0 then act.Thread? && act.step.Write?
    else if Count(s.producers, Wake.IsFlipped) > 0 then act.Thread? && act.step.StampIt?
    else act.Thread? && act.step.Swap?
  }

  lemma {:induction false} OwedByOne(ps: seq<Producer>)
    ensures Count(ps, Wake.Owes) == Count(ps, IsStamped) + Count(ps, Wake.IsFlipped)
  {
    if ps != [] {
      OwedByOne(ps[..|ps| - 1]);
    }
  }

  /** While something is queued, the step waited for can be taken. */
  lemma SomeoneHelps(l: Live, c: Channel) returns (act: Act)
    requires Inv(l) && Queue(l.base, c) != []
    ensures Helps(l, act) && LiveReady(l, act)
  {
    var s := l.base;
    act := Thread(Drain);
    if s.drainer.Asleep? && s.bytes == 0 {
      assert Wake.NotLost(s, c);
      OwedByOne(s.producers);
      CountBounds(s.producers, IsStamped);
      CountBounds(s.producers, Wake.IsFlipped);
      CountBounds(s.producers, Wake.IsPushed);
      if i :| 0 <= i < |s.producers| && s.producers[i].Stamped? {
        act := Thread(Write(i));
      } else if i :| 0 <= i < |s.producers| && s.producers[i].Flipped? {
        act := Thread(StampIt(i));
      } else {
        var i :| 0 <= i < |s.producers| && s.producers[i].Pushed?;
        act := Thread(Swap(i));
      }
    }
  }

  lemma Counts(s: State, a: Label)
    requires Wake.ByProducer(a) && Ready(s, a)
    ensures var t := Apply(s, a);
      var p, q := s.producers[a.i], t.producers[a.i];
      && Count(t.producers, IsStamped)
         == Count(s.producers, IsStamped) - Bit(IsStamped(p)) + Bit(IsStamped(q))
      && Count(t.producers, Wake.IsFlipped)
         == Count(s.producers, Wake.IsFlipped) - Bit(Wake.IsFlipped(p)) + Bit(Wake.IsFlipped(q))
  {
    var q := Apply(s, a).producers[a.i];
    assert Apply(s, a).producers == s.producers[a.i := q];
    CountUpdate(s.producers, a.i, q, IsStamped);
    CountUpdate(s.producers, a.i, q, Wake.IsFlipped);
  }

  /** While it sleeps nobody sets the wake back, and the step waited for brings it on. */
  lemma NapShortens(l: Live, act: Act)
    requires Inv(l) && LiveReady(l, act) && l.base.drainer.Asleep? && !Starts(l, act)
    ensures var t := LiveApply(l, act);
      t.base.drainer.Asleep? && Nap(t.base) <= Nap(l.base) && (Helps(l, act) ==> Nap(t.base) < Nap(l.base))
  {
    OwedByOne(l.base.producers);
    if act.Thread? && Wake.ByProducer(act.step) {
      Counts(l.base, act.step);
      CountBounds(l.base.producers, IsStamped);
      CountBounds(l.base.producers, Wake.IsFlipped);
    } else {
      assert LiveApply(l, act).base.producers == l.base.producers;
    }
  }

  // ----- Fair scheduling -----

  /** How long an item has to wait: the pass that has passed it, then the nap, then the pass that reaches it. */
  datatype Wait = Wait(phase: nat, left: int)

  ghost function Waiting(l: Live, c: Channel, k: nat): Wait {
    var d := l.base.drainer;
    if Reaches(d, c) then Wait(0, ItemLeft(l, c, k))
    else if d.Asleep? then Wait(1, Nap(l.base))
    else Wait(2, PassLeft(l))
  }

  predicate Shorter(a: Wait, b: Wait) {
    a.phase < b.phase || (a.phase == b.phase && a.left < b.left)
  }

  /**
   A queued item's wait is well founded; no step of anyone lengthens it and the step waited for, which can
   be taken, shortens it. The one exception: a request dropped while a callback or a notice waits behind
   it. For a request there is none.
   */
  lemma WaitShortens(l: Live, act: Act, c: Channel, k: nat, producers: nat, limit: nat)
    requires LiveReachable(l, producers, limit) && LiveReady(l, act)
    requires k < |Queue(l.base, c)| && !(Takes(l, act, c) && k == 0)
    requires c.Requests? || !Drops(act) || Reaches(l.base.drainer, c)
    ensures var t, j := LiveApply(l, act), if Takes(l, act, c) then k - 1 else k;
      && j < |Queue(t.base, c)| && Queue(t.base, c)[j] == Queue(l.base, c)[k]
      && Waiting(t, c, j).left >= 1
      && (Waiting(t, c, j) == Waiting(l, c, k) || Shorter(Waiting(t, c, j), Waiting(l, c, k)))
      && (Helps(l, act) ==> Shorter(Waiting(t, c, j), Waiting(l, c, k)))
    ensures Waiting(l, c, k).left >= 1
  {
    var t, j := LiveApply(l, act), if Takes(l, act, c) then k - 1 else k;
    ReachableHolds(l, producers, limit);
    ItemStays(l, act, c, k);
    StepKeeps(l, act);
    DueIsPositive(l, c, k);
    DueIsPositive(t, c, j);
    PassesFall(l, act, c, k);
    if Starts(l, act) {
    } else if l.base.drainer.Asleep? {
      NapShortens(l, act);
    } else {
      StepIsPaid(l, act, c, k);
    }
  }

  // ----- What holds a callback or a notice up -----

  lemma {:induction false} LiveConcat(l: Live, run: seq<Act>, more: seq<Act>)
    requires LiveExec(l, run).Some?
    ensures LiveExec(l, run + more) == LiveExec(LiveExec(l, run).value, more)
    decreases |run|
  {
    if run == [] {
      assert run + more == more;
    } else {
      assert (run + more)[1..] == run[1..] + more;
      LiveConcat(LiveApply(l, run[0]), run[1..], more);
    }
  }

  lemma Goes(l: Live, act: Act, t: Live, producers: nat, limit: nat)
    requires LiveReachable(l, producers, limit) && LiveReady(l, act) && t == LiveApply(l, act)
    ensures LiveReachable(t, producers, limit)
  {
    var run :| LiveExec(LiveInitial(producers, limit), run) == Some(l);
    LiveConcat(LiveInitial(producers, limit), run, [act]);
    assert LiveExec(t, [act][1..]) == Some(t);
  }

  /** In the loop over requests, a callback queued behind it, `n` notices, the flag up and its byte unread. */
  function Behind(limit: nat, n: nat): Live {
    Live(State([1], seq(n, _ => 0), [], true, At(0), 1, 0, limit, [Resting], Popping(Requests), 0, 2, 1, 2, 0),
         0, 0, 0, 0, 0)
  }

  /** A request is pushed; its client leaves and the notice is pushed; the request is popped and dropped. */
  const ARRIVES: seq<Act> := [Thread(Measure(0, 0)), Thread(Decide(0)), Thread(PushRequest(0))]
  const LEAVES: seq<Act> := [Thread(Swap(0)), Leave, Thread(PushOther(0, Cancels, 0))]
  const DROPPED: seq<Act> := [Thread(Swap(0)), Thread(Drain), Thread(Discard)]

  function Laps(n: nat): seq<Act> {
    if n == 0 then [] else ARRIVES + (LEAVES + (DROPPED + Laps(n - 1)))
  }

  /** A step that leaves the callback waiting and begins no pass, put before a run. */
  lemma OneStep(l: Live, act: Act, t: Live, rest: seq<Act>)
    requires LiveReady(l, act) && t == LiveApply(l, act) && LiveExec(t, rest).Some?
    requires !Takes(l, act, Wakeups) && !Starts(l, act)
    ensures LiveExec(l, [act] + rest) == LiveExec(t, rest)
    ensures LivePlace(l, Wakeups, 0, [act] + rest) == LivePlace(t, Wakeups, 0, rest)
    ensures PassesOf(l, [act] + rest) == PassesOf(t, rest)
    ensures StepsOf([act] + rest) == StepsOf(rest) + if OfCallback(act) then 1 else 0
    ensures DropsOf([act] + rest) == DropsOf(rest) + if Drops(act) then 1 else 0
  {
    assert ([act] + rest)[1..] == rest;
  }

  /**
   `run` from `l` is `rest` from `t` after a detour in which the callback takes some steps and drops some
   requests.
   */
  ghost predicate Detour(l: Live, run: seq<Act>, t: Live, rest: seq<Act>, steps: nat, drops: nat) {
    && LiveExec(t, rest).Some? && LiveExec(l, run) == LiveExec(t, rest)
    && LivePlace(l, Wakeups, 0, run) == LivePlace(t, Wakeups, 0, rest)
    && PassesOf(l, run) == PassesOf(t, rest)
    && StepsOf(run) == StepsOf(rest) + steps && DropsOf(run) == DropsOf(rest) + drops
  }

  lemma ThreeSteps(l: Live, a: Act, l1: Live, b: Act, l2: Live, c: Act, t: Live, rest: seq<Act>)
    requires LiveReady(l, a) && l1 == LiveApply(l, a) && !Takes(l, a, Wakeups) && !Starts(l, a)
    requires LiveReady(l1, b) && l2 == LiveApply(l1, b) && !Takes(l1, b, Wakeups) && !Starts(l1, b)
    requires LiveReady(l2, c) && t == LiveApply(l2, c) && !Takes(l2, c, Wakeups) && !Starts(l2, c)
    requires LiveExec(t, rest).Some?
    ensures Detour(l, [a, b, c] + rest, t, rest,
                   (if OfCallback(a) then 1 else 0) + (if OfCallback(b) then 1 else 0)
                     + (if OfCallback(c) then 1 else 0),
                   (if Drops(a) then 1 else 0) + (if Drops(b) then 1 else 0) + (if Drops(c) then 1 else 0))
  {
    OneStep(l2, c, t, rest);
    OneStep(l1, b, l2, [c] + rest);
    OneStep(l, a, l1, [b] + ([c] + rest));
    assert [a, b, c] + rest == [a] + ([b] + ([c] + rest));
  }

  /** The request just pushed; then the notice just pushed. */
  function Arrived(limit: nat, n: nat): Live {
    var l := Behind(limit, n);
    l.(base := l.base.(producers := [Pushed], requests := [0]), clients := 1)
  }

  function Left(limit: nat, n: nat): Live {
    var l := Behind(limit, n + 1);
    l.(base := l.base.(producers := [Pushed], requests := [0]), absent := 1)
  }

  lemma Arrives(limit: nat, n: nat, rest: seq<Act>)
    requires limit > 0 && LiveExec(Arrived(limit, n), rest).Some?
    ensures Detour(Behind(limit, n), ARRIVES + rest, Arrived(limit, n), rest, 0, 0)
  {
    var l := Behind(limit, n);
    var l1, l2 := l.(base := l.base.(producers := [Measured(0, 0)])), l.(base := l.base.(producers := [Admitted(0)]));
    ThreeSteps(l, Thread(Measure(0, 0)), l1, Thread(Decide(0)), l2, Thread(PushRequest(0)), Arrived(limit, n), rest);
  }

  lemma Leaves(limit: nat, n: nat, rest: seq<Act>)
    requires LiveExec(Left(limit, n), rest).Some?
    ensures Detour(Arrived(limit, n), LEAVES + rest, Left(limit, n), rest, 0, 0)
  {
    var l := Arrived(limit, n);
    var l1 := l.(base := l.base.(producers := [Resting]));
    var l2 := l1.(clients := 0, owing := 1, absent := 1);
    assert l2.base.cancels + [0] == Left(limit, n).base.cancels;
    ThreeSteps(l, Thread(Swap(0)), l1, Leave, l2, Thread(PushOther(0, Cancels, 0)), Left(limit, n), rest);
  }

  lemma Dropped(limit: nat, n: nat, rest: seq<Act>)
    requires LiveExec(Behind(limit, n + 1), rest).Some?
    ensures Detour(Left(limit, n), DROPPED + rest, Behind(limit, n + 1), rest, 2, 1)
  {
    var l, t := Left(limit, n), Behind(limit, n + 1);
    var l1 := l.(base := l.base.(producers := [Resting]));
    var l2 := l1.(base := l1.base.(requests := [], drainer := Holding(0)));
    ThreeSteps(l, Thread(Swap(0)), l1, Thread(Drain), l2, Thread(Discard), t, rest);
  }

  lemma {:induction false} LapsRun(limit: nat, n: nat, more: nat)
    requires limit > 0
    ensures var l, run := Behind(limit, n), Laps(more);
      && LiveExec(l, run) == Some(Behind(limit, n + more)) && LivePlace(l, Wakeups, 0, run) == Some(0)
      && PassesOf(l, run) == 0 && StepsOf(run) == 2 * more && DropsOf(run) == more
    decreases more
  {
    if more > 0 {
      var rest := Laps(more - 1);
      LapsRun(limit, n + 1, more - 1);
      Dropped(limit, n, rest);
      Leaves(limit, n, DROPPED + rest);
      Arrives(limit, n, LEAVES + (DROPPED + rest));
    }
  }

  /** From rest: the loop leaves two callbacks, one is pushed and starts a pass, the other comes too late for it. */
  lemma BehindIsReached(limit: nat)
    ensures LiveReachable(Behind(limit, 0), 1, limit)
  {
    var l0 := LiveInitial(1, limit);
    assert LiveExec(l0, []) == Some(l0);
    var l2 := l0.(registered := 2);
    Goes(l0, Register, l0.(registered := 1), 1, limit);
    Goes(l0.(registered := 1), Register, l2, 1, limit);
    var l3 := l2.(registered := 1, base := l2.base.(wakeups := [0], producers := [Pushed]));
    Goes(l2, Thread(PushOther(0, Wakeups, 0)), l3, 1, limit);
    var l6 := Woken(l3, limit);
    var l9 := l6.(base := l6.base.(drainer := Popping(Wakeups), bytes := 0, stamp := IDLE, notified := false,
                                   clears := 1));
    Goes(l6, Thread(Drain), l6.(base := l6.base.(drainer := Drained, bytes := 0)), 1, limit);
    Goes(l6.(base := l6.base.(drainer := Drained, bytes := 0)), Thread(Drain),
         l6.(base := l6.base.(drainer := StampCleared, bytes := 0, stamp := IDLE)), 1, limit);
    Goes(l6.(base := l6.base.(drainer := StampCleared, bytes := 0, stamp := IDLE)), Thread(Drain), l9, 1, limit);
    ComesTooLate(l9, limit);
  }

  lemma Woken(l: Live, limit: nat) returns (t: Live)
    requires LiveReachable(l, 1, limit) && l.base.producers == [Pushed] && !l.base.notified
    ensures LiveReachable(t, 1, limit)
    ensures t == l.(base := l.base.(notified := true, flips := l.base.flips + 1, flippedAt := l.base.now,
                                    stamp := At(l.base.now),
                                    stampedFor := l.base.flips + 1, bytes := l.base.bytes + 1, producers := [Resting]))
  {
    var l1 := l.(base := l.base.(notified := true, flips := l.base.flips + 1, flippedAt := l.base.now,
                                 producers := [Flipped]));
    Goes(l, Thread(Swap(0)), l1, 1, limit);
    var l2 := l1.(base := l1.base.(stamp := At(l.base.now), stampedFor := l.base.flips + 1, producers := [Stamped]));
    Goes(l1, Thread(StampIt(0)), l2, 1, limit);
    t := l2.(base := l2.base.(bytes := l.base.bytes + 1, producers := [Resting]));
    Goes(l2, Thread(Write(0)), t, 1, limit);
  }

  lemma ComesTooLate(l: Live, limit: nat)
    requires LiveReachable(l, 1, limit)
    requires l == Live(State([0], [], [], false, IDLE, 0, 0, limit, [Resting], Popping(Wakeups), 0, 1, 1, 1, 0),
                       1, 0, 0, 0, 0)
    ensures LiveReachable(Behind(limit, 0), 1, limit)
  {
    var l1 := l.(base := l.base.(wakeups := []));
    Goes(l, Thread(Drain), l1, 1, limit);
    var l2 := l1.(base := l1.base.(drainer := Popping(Cancels)));
    Goes(l1, Thread(Drain), l2, 1, limit);
    var l3 := l2.(base := l2.base.(drainer := Popping(Requests)));
    Goes(l2, Thread(Drain), l3, 1, limit);
    QueuesBehind(l3, limit);
  }

  lemma QueuesBehind(l: Live, limit: nat)
    requires LiveReachable(l, 1, limit)
    requires l == Live(State([], [], [], false, IDLE, 0, 0, limit, [Resting], Popping(Requests), 0, 1, 1, 1, 0),
                       1, 0, 0, 0, 0)
    ensures LiveReachable(Behind(limit, 0), 1, limit)
  {
    var l1 := l.(registered := 0, base := l.base.(wakeups := [1], producers := [Pushed]));
    Goes(l, Thread(PushOther(0, Wakeups, 1)), l1, 1, limit);
    var t := Woken(l1, limit);
    assert t == Behind(limit, 0);
  }

  /**
   And dropped requests do hold it up, for as long as they come: for every `n` a run of one pass in which
   `n` requests arrive and are dropped, the callback takes `2 * n` steps and the one queued behind stays.
   With `ItemIsDue`, the steps it waits are unbounded exactly where the dropped requests are.
   */
  lemma DropsHoldUp(limit: nat, n: nat)
    requires limit > 0
    ensures LiveReachable(Behind(limit, 0), 1, limit) && Behind(limit, 0).base.wakeups == [1]
    ensures var run := Laps(n);
      && LiveExec(Behind(limit, 0), run) == Some(Behind(limit, n))
      && LivePlace(Behind(limit, 0), Wakeups, 0, run) == Some(0)
      && PassesOf(Behind(limit, 0), run) == 0 && DropsOf(run) == n && StepsOf(run) == 2 * n
  {
    BehindIsReached(limit);
    LapsRun(limit, 0, n);
  }

  predicate HoldsOne(l: Live) {
    l.base.drainer.Holding?
  }

  /** Dropping a request takes the callback two steps. */
  lemma {:induction false} DropsArePopped(l: Live, run: seq<Act>)
    requires LiveExec(l, run).Some?
    ensures 2 * DropsOf(run) + Bit(HoldsOne(LiveExec(l, run).value)) <= StepsOf(run) + Bit(HoldsOne(l))
    decreases |run|
  {
    if run != [] {
      DropsArePopped(LiveApply(l, run[0]), run[1..]);
    }
  }

  /**
   What a callback or a notice waits for within a pass, from both sides: the callback's steps are two for
   each request dropped, less one if it began with one in hand, and otherwise at most a bound of where it
   began. A request is not held up by them at all.
   */
  lemma HeldUpByDropsAlone(l: Live, c: Channel, k: nat, run: seq<Act>, producers: nat, limit: nat)
    requires LiveReachable(l, producers, limit) && LiveExec(l, run).Some?
    requires k < |Queue(l.base, c)| && LivePlace(l, c, k, run).Some? && PassesOf(l, run) == 0
    ensures 2 * DropsOf(run) - Bit(HoldsOne(l)) <= StepsOf(run)
    ensures StepsOf(run) <= Due(l, c, k) + if c.Requests? then 0 else 2 * DropsOf(run)
  {
    ReachableHolds(l, producers, limit);
    ItemIsDue(l, c, k, run);
    DropsArePopped(l, run);
  }
}

/**
 Executions that never end. Under fair scheduling every queued request is popped. A callback or a notice is
 too, unless it came after its loop of a pass that never ends; such a pass drops requests for ever, and
 there is one.
 */
module DispatchForever {
  import opened Util
  import opened Dispatch
  import opened DispatchReach
  import opened DispatchLoop
  import opened DispatchFairness
  import Wake = DispatchWake

  datatype Execution = Execution(states: nat -> Live, acts: nat -> Act)

  ghost predicate StepsAt(e: Execution, n: nat) {
    LiveReady(e.states(n), e.acts(n)) && e.states(n + 1) == LiveApply(e.states(n), e.acts(n))
  }

  /** It starts at any reachable state, so also at the first. */
  ghost predicate Runs(e: Execution, producers: nat, limit: nat) {
    LiveReachable(e.states(0), producers, limit) && forall n: nat :: StepsAt(e, n)
  }

  /** Who may be kept from running: the worker's loop, or a producer's thread. */
  datatype Agent = Loop | Producing(i: nat)

  /** It has a step to take: the loop of the callback, or to call it; a producer of the `wake` it is in. */
  predicate Owed(l: Live, who: Agent) {
    match who
    case Loop => Ready(l.base, Drain)
    case Producing(i) =>
      var ps := l.base.producers;
      i < |ps| && (Wake.IsPushed(ps[i]) || Wake.Owes(ps[i]))
  }

  predicate Moves(act: Act, who: Agent) {
    match who
    case Loop => OfCallback(act)
    case Producing(i) => act.Thread? && Wake.ByProducer(act.step) && act.step.i == i
  }

  ghost predicate Attended(e: Execution, who: Agent, n: nat) {
    exists m: nat :: n <= m && (Moves(e.acts(m), who) || !Owed(e.states(m), who))
  }

  /** Whoever has a step to take takes it some time, or is spared it. Nobody has to push, finish or leave. */
  ghost predicate Fair(e: Execution) {
    forall who, n: nat :: Attended(e, who, n)
  }

  lemma {:induction false} StaysReachable(e: Execution, n: nat, producers: nat, limit: nat)
    requires Runs(e, producers, limit)
    ensures LiveReachable(e.states(n), producers, limit) && Inv(e.states(n))
  {
    if n > 0 {
      StaysReachable(e, n - 1, producers, limit);
      assert StepsAt(e, n - 1);
      Goes(e.states(n - 1), e.acts(n - 1), e.states(n), producers, limit);
    }
    ReachableHolds(e.states(n), producers, limit);
  }

  // ----- The step waited for is taken -----

  /** Whose step is waited for. */
  ghost predicate Awaited(l: Live, who: Agent) {
    var s := l.base;
    if !s.drainer.Asleep? || s.bytes > 0 then who.Loop?
    else
      && who.Producing? && who.i < |s.producers|
      && var p := s.producers[who.i];
         if Count(s.producers, IsStamped) > 0 then p.Stamped?
         else if Count(s.producers, Wake.IsFlipped) > 0 then p.Flipped?
         else p.Pushed?
  }

  lemma SomeoneIsAwaited(l: Live, c: Channel) returns (who: Agent)
    requires Inv(l) && Queue(l.base, c) != []
    ensures Awaited(l, who)
  {
    var act := SomeoneHelps(l, c);
    who := if OfCallback(act) then Loop else Producing(act.step.i);
  }

  /** Of the sleeping loop's producers, none gets further than the one awaited by a step that does not help. */
  lemma NobodyOvertakes(l: Live, act: Act)
    requires LiveReady(l, act) && !Helps(l, act) && l.base.drainer.Asleep? && l.base.bytes == 0
    ensures var ps, qs := l.base.producers, LiveApply(l, act).base.producers;
      && (Count(ps, IsStamped) > 0 <==> Count(qs, IsStamped) > 0)
      && (Count(ps, IsStamped) == 0 ==> (Count(ps, Wake.IsFlipped) > 0 <==> Count(qs, Wake.IsFlipped) > 0))
    ensures LiveApply(l, act).base.drainer.Asleep? && LiveApply(l, act).base.bytes == 0
  {
    if act.Thread? && Wake.ByProducer(act.step) {
      var ps := l.base.producers;
      CountBounds(ps, IsStamped);
      CountBounds(ps, Wake.IsFlipped);
      Counts(l.base, act.step);
    } else {
      assert LiveApply(l, act).base.producers == l.base.producers;
    }
  }

  /** It is owed until it is taken. */
  lemma AwaitedStays(l: Live, act: Act, who: Agent)
    requires Awaited(l, who) && LiveReady(l, act) && !Helps(l, act)
    ensures Owed(l, who) && !Moves(act, who) && Awaited(LiveApply(l, act), who)
  {
    if Moves(act, who) {
      AwaitedHelps(l, act, who);
      assert false;
    }
    if l.base.drainer.Asleep? && l.base.bytes == 0 {
      NobodyOvertakes(l, act);
      var s, t := l.base, LiveApply(l, act).base;
      assert t.producers[who.i] == s.producers[who.i];
    }
  }

  lemma AwaitedHelps(l: Live, act: Act, who: Agent)
    requires Awaited(l, who) && LiveReady(l, act) && Moves(act, who)
    ensures Helps(l, act)
  {
    CountBounds(l.base.producers, IsStamped);
    CountBounds(l.base.producers, Wake.IsFlipped);
  }

  lemma {:induction false} HelpComes(e: Execution, n: nat, m: nat, who: Agent, producers: nat, limit: nat)
    returns (h: nat)
    requires Runs(e, producers, limit) && n <= m && Awaited(e.states(n), who)
    requires Moves(e.acts(m), who) || !Owed(e.states(m), who)
    ensures n <= h && Helps(e.states(h), e.acts(h))
    decreases m - n
  {
    assert StepsAt(e, n);
    h := n;
    if !Helps(e.states(n), e.acts(n)) {
      StaysReachable(e, n, producers, limit);
      AwaitedStays(e.states(n), e.acts(n), who);
      h := HelpComes(e, n + 1, m, who, producers, limit);
    }
  }

  lemma NextHelp(e: Execution, n: nat, c: Channel, producers: nat, limit: nat) returns (h: nat)
    requires Runs(e, producers, limit) && Fair(e) && Queue(e.states(n).base, c) != []
    ensures n <= h && Helps(e.states(h), e.acts(h))
  {
    StaysReachable(e, n, producers, limit);
    var who := SomeoneIsAwaited(e.states(n), c);
    assert Attended(e, who, n);
    var m: nat :| n <= m && (Moves(e.acts(m), who) || !Owed(e.states(m), who));
    h := HelpComes(e, n, m, who, producers, limit);
  }

  // ----- The item is popped -----

  function Stretch(e: Execution, n: nat, m: nat): (run: seq<Act>)
    requires n <= m
    ensures |run| == m - n && forall i :: 0 <= i < |run| ==> run[i] == e.acts(n + i)
  {
    seq(m - n, i requires 0 <= i => e.acts(n + i))
  }

  /** Between steps `n` and `m` the item at place `k` is popped. */
  ghost predicate PoppedBy(e: Execution, c: Channel, k: nat, n: nat, m: nat) {
    n <= m &&
    var run := Stretch(e, n, m);
    LiveExec(e.states(n), run).Some? && LivePlace(e.states(n), c, k, run).None?
  }

  ghost predicate Popped(e: Execution, c: Channel, k: nat, n: nat) {
    exists m: nat :: PoppedBy(e, c, k, n, m)
  }

  lemma {:induction false} StretchRuns(e: Execution, n: nat, m: nat)
    requires n <= m && forall i: nat :: StepsAt(e, i)
    ensures LiveExec(e.states(n), Stretch(e, n, m)) == Some(e.states(m))
    decreases m - n
  {
    if n < m {
      assert StepsAt(e, n);
      assert Stretch(e, n, m)[1..] == Stretch(e, n + 1, m);
      StretchRuns(e, n + 1, m);
    }
  }

  lemma PoppedNow(e: Execution, c: Channel, n: nat)
    requires StepsAt(e, n) && Takes(e.states(n), e.acts(n), c)
    ensures Popped(e, c, 0, n)
  {
    var run := Stretch(e, n, n + 1);
    assert run[1..] == [];
    assert LiveExec(e.states(n), run) == Some(e.states(n + 1));
    assert PoppedBy(e, c, 0, n, n + 1);
  }

  /** The item's place after one step that does not pop it. */
  ghost function Moved(e: Execution, c: Channel, k: nat, n: nat): nat
    requires !(Takes(e.states(n), e.acts(n), c) && k == 0)
  {
    if Takes(e.states(n), e.acts(n), c) then k - 1 else k
  }

  lemma PoppedNext(e: Execution, c: Channel, k: nat, n: nat)
    requires StepsAt(e, n) && !(Takes(e.states(n), e.acts(n), c) && k == 0)
    ensures Popped(e, c, Moved(e, c, k, n), n + 1) ==> Popped(e, c, k, n)
  {
    var j, next := Moved(e, c, k, n), n + 1;
    if m: nat :| PoppedBy(e, c, j, next, m) {
      var run := Stretch(e, n, m);
      assert run[0] == e.acts(n) && run[1..] == Stretch(e, n + 1, m);
      assert LiveExec(e.states(n), run) == LiveExec(e.states(n + 1), run[1..]);
      assert LivePlace(e.states(n), c, k, run) == LivePlace(e.states(n + 1), c, j, run[1..]);
      assert PoppedBy(e, c, k, n, m);
    }
  }

  ghost predicate NoDrops(e: Execution, n: nat) {
    forall m: nat :: n <= m ==> !Drops(e.acts(m))
  }

  /** The pass under way, if there is one, will reach it; or nothing lengthens that pass. */
  ghost predicate OnItsWay(e: Execution, c: Channel, n: nat) {
    c.Requests? || Reaches(e.states(n).base.drainer, c) || e.states(n).base.drainer.Asleep? || NoDrops(e, n)
  }

  lemma StaysOnItsWay(e: Execution, c: Channel, k: nat, n: nat)
    requires StepsAt(e, n) && Inv(e.states(n)) && OnItsWay(e, c, n) && k < |Queue(e.states(n).base, c)|
    requires !(Takes(e.states(n), e.acts(n), c) && k == 0)
    ensures OnItsWay(e, c, n + 1)
    ensures c.Requests? || !Drops(e.acts(n)) || Reaches(e.states(n).base.drainer, c)
  {
    var l, act := e.states(n), e.acts(n);
    if Reaches(l.base.drainer, c) && OfCallback(act) {
      ItemMoves(l, act, c, k);
    }
  }

  /** By the measure, and the time to the next step that is waited for. */
  lemma {:induction false} ComesToBePopped(e: Execution, c: Channel, k: nat, n: nat, h: nat, producers: nat, limit: nat)
    requires Runs(e, producers, limit) && Fair(e) && k < |Queue(e.states(n).base, c)| && OnItsWay(e, c, n)
    requires n <= h && Helps(e.states(h), e.acts(h))
    ensures Popped(e, c, k, n)
    decreases Waiting(e.states(n), c, k).phase, Waiting(e.states(n), c, k).left, h - n
  {
    var l, act := e.states(n), e.acts(n);
    assert StepsAt(e, n);
    if Takes(l, act, c) && k == 0 {
      PoppedNow(e, c, n);
    } else {
      StaysReachable(e, n, producers, limit);
      StaysOnItsWay(e, c, k, n);
      WaitShortens(l, act, c, k, producers, limit);
      var j := Moved(e, c, k, n);
      var next := h;
      if n == h {
        next := NextHelp(e, n + 1, c, producers, limit);
      }
      ComesToBePopped(e, c, j, n + 1, next, producers, limit);
      PoppedNext(e, c, k, n);
    }
  }

  // ----- Exactly when a callback or a notice is not -----

  /** If it is on its way at some later time, it is popped. */
  lemma {:induction false} PoppedLater(e: Execution, c: Channel, k: nat, n: nat, z: nat, producers: nat, limit: nat)
    requires Runs(e, producers, limit) && Fair(e) && k < |Queue(e.states(n).base, c)|
    requires n <= z && OnItsWay(e, c, z)
    ensures Popped(e, c, k, n)
    decreases z - n
  {
    assert StepsAt(e, n);
    if n == z {
      var h := NextHelp(e, n, c, producers, limit);
      ComesToBePopped(e, c, k, n, h, producers, limit);
    } else if Takes(e.states(n), e.acts(n), c) && k == 0 {
      PoppedNow(e, c, n);
    } else {
      ItemStays(e.states(n), e.acts(n), c, k);
      PoppedLater(e, c, Moved(e, c, k, n), n + 1, z, producers, limit);
      PoppedNext(e, c, k, n);
    }
  }

  /** The pass under way at `n` never ends. */
  ghost predicate NeverEnds(e: Execution, n: nat) {
    forall m: nat :: n <= m ==> !e.states(m).base.drainer.Asleep?
  }

  lemma {:induction false} PassedForEver(e: Execution, c: Channel, k: nat, n: nat, m: nat)
    requires (forall i: nat :: StepsAt(e, i)) && NeverEnds(e, n) && !Reaches(e.states(n).base.drainer, c)
    ensures !PoppedBy(e, c, k, n, m)
    decreases m - n
  {
    if n < m {
      assert StepsAt(e, n);
      StaysPassed(e.states(n), e.acts(n), c);
      PassedForEver(e, c, k, n + 1, m);
      assert Stretch(e, n, m)[1..] == Stretch(e, n + 1, m);
    }
  }

  ghost predicate DropsAfter(e: Execution, p: nat) {
    exists d: nat :: p <= d && Drops(e.acts(d))
  }

  /**
   Under fair scheduling an item is never popped exactly if it is a callback or a notice that the pass under
   way has passed, and that pass never ends. Such a pass drops requests for ever.
   */
  lemma HeldUpForEverIff(e: Execution, c: Channel, k: nat, n: nat, producers: nat, limit: nat)
    requires Runs(e, producers, limit) && Fair(e) && k < |Queue(e.states(n).base, c)|
    ensures !Popped(e, c, k, n) <==>
      !c.Requests? && !Reaches(e.states(n).base.drainer, c) && NeverEnds(e, n)
    ensures !Popped(e, c, k, n) ==> forall p: nat :: DropsAfter(e, p)
  {
    if !Popped(e, c, k, n) {
      forall m: nat | n <= m ensures !OnItsWay(e, c, m) {
        if OnItsWay(e, c, m) {
          PoppedLater(e, c, k, n, m, producers, limit);
        }
      }
      assert !OnItsWay(e, c, n);
      forall m: nat | n <= m ensures !e.states(m).base.drainer.Asleep? {
        assert !OnItsWay(e, c, m);
      }
      forall p: nat ensures DropsAfter(e, p) {
        var z := if p < n then n else p;
        assert !OnItsWay(e, c, z) && !NoDrops(e, z);
      }
    } else if !c.Requests? && !Reaches(e.states(n).base.drainer, c) && NeverEnds(e, n) {
      var m: nat :| PoppedBy(e, c, k, n, m);
      PassedForEver(e, c, k, n, m);
    }
  }

  /**
   Under fair scheduling every queued request is popped, wherever it stands and whatever else arrives; so is a
   callback or a notice the pass under way has not passed, and every one if from some time on no step drops a
   request.
   */
  lemma FairlyPopped(e: Execution, c: Channel, k: nat, n: nat, producers: nat, limit: nat)
    requires Runs(e, producers, limit) && Fair(e) && k < |Queue(e.states(n).base, c)|
    ensures c.Requests? || Reaches(e.states(n).base.drainer, c) ==> Popped(e, c, k, n)
    ensures forall p: nat :: NoDrops(e, p) ==> Popped(e, c, k, n)
  {
    HeldUpForEverIff(e, c, k, n, producers, limit);
    forall p: nat | NoDrops(e, p) ensures Popped(e, c, k, n) {
      assert !DropsAfter(e, p);
    }
  }

  // ----- It can happen -----

  const LAP: seq<Act> := ARRIVES + LEAVES + DROPPED

  /** The lap of `DropsHoldUp`, for ever: after `q` laps and `r` steps. */
  function InLap(limit: nat, q: nat, r: nat): Live {
    var l := Behind(limit, q);
    var pushed := l.base.(producers := [Pushed], requests := [0]);
    var gone := Left(limit, q);
    match r
    case 0 => l
    case 1 => l.(base := l.base.(producers := [Measured(0, 0)]))
    case 2 => l.(base := l.base.(producers := [Admitted(0)]))
    case 3 => l.(base := pushed, clients := 1)
    case 4 => l.(base := l.base.(requests := [0]), clients := 1)
    case 5 => l.(base := l.base.(requests := [0]), owing := 1, absent := 1)
    case 6 => gone
    case 7 => gone.(base := gone.base.(producers := [Resting]))
    case _ => gone.(base := gone.base.(producers := [Resting], requests := [], drainer := Holding(0)))
  }

  function DroppingForEver(limit: nat): Execution {
    Execution((n: nat) => InLap(limit, n / 9, n % 9), (n: nat) => LAP[n % 9])
  }

  lemma LapStep(limit: nat, q: nat, r: nat)
    requires limit > 0 && r < 9
    ensures LiveReady(InLap(limit, q, r), LAP[r])
    ensures LiveApply(InLap(limit, q, r), LAP[r]) == if r == 8 then InLap(limit, q + 1, 0) else InLap(limit, q, r + 1)
  {
    assert Behind(limit, q).base.cancels + [0] == Behind(limit, q + 1).base.cancels;
  }

  lemma DroppingSteps(limit: nat, n: nat)
    requires limit > 0
    ensures StepsAt(DroppingForEver(limit), n)
  {
    var q, r := n / 9, n % 9;
    LapStep(limit, q, r);
    NextInLap(n);
    var e := DroppingForEver(limit);
    assert e.states(n) == InLap(limit, q, r) && e.acts(n) == LAP[r];
    assert e.states(n + 1) == InLap(limit, (n + 1) / 9, (n + 1) % 9);
  }

  lemma DroppingRuns(limit: nat)
    requires limit > 0
    ensures Runs(DroppingForEver(limit), 1, limit)
  {
    BehindIsReached(limit);
    forall n: nat ensures StepsAt(DroppingForEver(limit), n) {
      DroppingSteps(limit, n);
    }
  }

  /** In each lap the callback takes a step, and the producer is out of `wake` at its start. */
  lemma DroppingIsFair(limit: nat)
    ensures Fair(DroppingForEver(limit))
  {
    var e := DroppingForEver(limit);
    forall who, n: nat ensures Attended(e, who, n) {
      var m := if who.Loop? then 9 * n + 7 else 9 * n;
      LapIndex(n);
      assert Moves(e.acts(m), who) || !Owed(e.states(m), who);
    }
  }

  /** One callback, queued behind requests that are dropped for ever, is never run, and nobody is kept from running. */
  lemma HeldUpForEver(limit: nat)
    requires limit > 0
    ensures var e := DroppingForEver(limit);
      Runs(e, 1, limit) && Fair(e) && e.states(0).base.wakeups == [1] && !Popped(e, Wakeups, 0, 0)
  {
    var e := DroppingForEver(limit);
    DroppingRuns(limit);
    DroppingIsFair(limit);
    assert NeverEnds(e, 0);
    HeldUpForEverIff(e, Wakeups, 0, 0, 1, limit);
  }

  lemma NextInLap(n: nat)
    ensures n % 9 == 8 ==> (n + 1) / 9 == n / 9 + 1 && (n + 1) % 9 == 0
    ensures n % 9 != 8 ==> (n + 1) / 9 == n / 9 && (n + 1) % 9 == n % 9 + 1
  {
  }

  lemma LapIndex(n: nat)
    ensures (9 * n + 7) % 9 == 7 && (9 * n) % 9 == 0 && (9 * n) / 9 == n
  {
  }
}

/**
 Only arrivals on other queues hold an item up. The callback takes a bounded number of steps before it
 pops any given item, whatever arrives behind it; each arrival on another queue allows two more.
 */
module DispatchReach {
  import opened Util
  import opened Dispatch

  /** How far the callback is from the end of its pass. */
  function Rank(d: Drainer): nat {
    match d
    case Asleep => 12
    case Drained => 11
    case StampCleared => 10
    case Popping(Wakeups) => 9
    case Popping(Cancels) => 8
    case Popping(Requests) => 7
    case Holding(_) => 8
    case Checking(Requests) => 6
    case Checking(Wakeups) => 5
    case Checking(Cancels) => 4
    case Rewaking(Pushed) => 3
    case Rewaking(Flipped) => 2
    case Rewaking(_) => 1
  }

  /** It has left queue `c` behind in this pass. */
  predicate Passed(d: Drainer, c: Channel) {
    Rank(d) < Rank(Popping(c)) || (d.Holding? && !c.Requests?)
  }

  /** Steps, other than pops, before it is in the loop over `c`: the rest of this pass too if it has passed it. */
  function Phase(d: Drainer, c: Channel): int {
    Rank(d) - Rank(Popping(c)) + if Passed(d, c) then 12 else 0
  }

  function Others(s: State, c: Channel): nat {
    |s.wakeups| + |s.cancels| + |s.requests| - |Queue(s, c)|
  }

  /** What the callback may still do before it pops the item at place `k` of queue `c`. */
  function Ahead(s: State, c: Channel, k: nat): int {
    2 * (k + 1) + 2 * Others(s, c) + Phase(s.drainer, c)
  }

  predicate ByCallback(a: Label) {
    a.Drain? || a.Discard?
  }

  predicate ArrivesElsewhere(a: Label, c: Channel) {
    (a.PushRequest? && !c.Requests?) || (a.PushOther? && a.to != c)
  }

  /** This step pops the first item of `c`. */
  predicate Pops(s: State, a: Label, c: Channel) {
    a.Drain? && s.drainer == Popping(c) && Queue(s, c) != []
  }

  /** What a step makes of the item at place `k`, and of what the callback may still do. */
  ghost predicate Approaches(s: State, a: Label, t: State, c: Channel, k: nat, j: nat) {
    && k < |Queue(s, c)| && j < |Queue(t, c)| && Queue(t, c)[j] == Queue(s, c)[k]
    && Ahead(t, c, j) + (if ByCallback(a) then 1 else 0) <= Ahead(s, c, k) + (if ArrivesElsewhere(a, c) then 2 else 0)
  }

  lemma ProducerApproaches(s: State, a: Label, c: Channel, k: nat)
    requires Ready(s, a) && k < |Queue(s, c)| && !ByCallback(a)
    ensures Approaches(s, a, Apply(s, a), c, k, k)
  {
    assert Apply(s, a).drainer == s.drainer;
  }

  predicate PopsFrom(s: State, c: Channel) {
    s.drainer == Popping(c) && Queue(s, c) != []
  }

  lemma PopApproaches(s: State, from: Channel, c: Channel, k: nat)
    requires PopsFrom(s, from) && k < |Queue(s, c)| && !(from == c && k == 0)
    ensures Approaches(s, Drain, Apply(s, Drain), c, k, if from == c then k - 1 else k)
  {
    match from case Wakeups => case Cancels => case Requests =>
  }

  predicate PopsNothing(s: State, a: Label) {
    ByCallback(a) && (a.Drain? && s.drainer.Popping? ==> Queue(s, s.drainer.from) == [])
  }

  lemma QueuesStand(s: State, a: Label)
    requires Ready(s, a) && PopsNothing(s, a)
    ensures var t := Apply(s, a); t.wakeups == s.wakeups && t.cancels == s.cancels && t.requests == s.requests
  {
  }

  lemma PhaseFalls(s: State, a: Label, c: Channel)
    requires Ready(s, a) && PopsNothing(s, a) && Queue(s, c) != []
    ensures Phase(Apply(s, a).drainer, c) + 1 <= Phase(s.drainer, c)
  {
    match c case Wakeups => case Cancels => case Requests =>
  }

  lemma MoveApproaches(s: State, a: Label, c: Channel, k: nat)
    requires Ready(s, a) && k < |Queue(s, c)| && PopsNothing(s, a)
    ensures Approaches(s, a, Apply(s, a), c, k, k)
  {
    QueuesStand(s, a);
    PhaseFalls(s, a, c);
  }

  /** A step leaves the item where it was, moves it up one place, or pops it; and the callback's steps are paid for. */
  lemma StepApproaches(s: State, a: Label, c: Channel, k: nat)
    requires Ready(s, a) && k < |Queue(s, c)| && !(Pops(s, a, c) && k == 0)
    ensures Approaches(s, a, Apply(s, a), c, k, if Pops(s, a, c) then k - 1 else k)
  {
    if !ByCallback(a) {
      ProducerApproaches(s, a, c, k);
    } else if a.Drain? && s.drainer.Popping? && PopsFrom(s, s.drainer.from) {
      PopApproaches(s, s.drainer.from, c, k);
    } else {
      MoveApproaches(s, a, c, k);
    }
  }

  /** Where the item at place `k` of `c` is after a run; None once it has been popped. */
  function Place(s: State, c: Channel, k: nat, run: seq<Label>): Option<nat>
    requires Exec(s, run).Some?
    decreases |run|
  {
    if run == [] then Some(k)
    else if Pops(s, run[0], c) then
      if k == 0 then None else Place(Apply(s, run[0]), c, k - 1, run[1..])
    else Place(Apply(s, run[0]), c, k, run[1..])
  }

  function CallbackSteps(run: seq<Label>): nat {
    if run == [] then 0 else (if ByCallback(run[0]) then 1 else 0) + CallbackSteps(run[1..])
  }

  function ArrivalsElsewhere(run: seq<Label>, c: Channel): nat {
    if run == [] then 0 else (if ArrivesElsewhere(run[0], c) then 1 else 0) + ArrivalsElsewhere(run[1..], c)
  }

  /**
   While an item is still queued the callback has taken at most `Ahead` steps and two for each arrival on
   the other queues. Arrivals on its own queue, however many, do not hold it up.
   */
  lemma {:induction false} ItemIsReached(s: State, c: Channel, k: nat, run: seq<Label>)
    requires Exec(s, run).Some? && k < |Queue(s, c)| && Place(s, c, k, run).Some?
    ensures var t, j := Exec(s, run).value, Place(s, c, k, run).value;
      && j <= k && j < |Queue(t, c)| && Queue(t, c)[j] == Queue(s, c)[k]
      && Ahead(t, c, j) >= 2 && CallbackSteps(run) + Ahead(t, c, j) <= Ahead(s, c, k) + 2 * ArrivalsElsewhere(run, c)
    decreases |run|
  {
    if run != [] {
      StepApproaches(s, run[0], c, k);
      ItemIsReached(Apply(s, run[0]), c, if Pops(s, run[0], c) then k - 1 else k, run[1..]);
    }
  }

  /**
   So a lap that can be run for ever, with the callback moving and the item in its place, has arrivals on
   another queue. What the surroundings allow of those is `DispatchLoop`'s.
   */
  lemma StarvingTakesOthers(s: State, c: Channel, k: nat, lap: seq<Label>)
    requires Exec(s, lap) == Some(s) && k < |Queue(s, c)| && Place(s, c, k, lap) == Some(k) && CallbackSteps(lap) > 0
    ensures ArrivalsElsewhere(lap, c) > 0
  {
    ItemIsReached(s, c, k, lap);
  }
}

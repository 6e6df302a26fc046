/**
 The dispatch protocol with what its surroundings allow. A callback is pushed only if the loop left it
 earlier, which the loop cannot do while it is inside the drain callback; a notice only if the client of
 a request pushed before has left; a slot comes back only from a handler that has run. Every run here is
 a run of `Dispatch`, so what is proved there holds.

 Whatever is queued is popped in this pass of the callback or the next, and a pass gets to it within a
 bound; for a callback or a notice it has passed, two steps more for each request it drops.
 */
module DispatchLoop {
  import opened Util
  import opened Dispatch
  import opened DispatchReach
  import Admission = DispatchAdmission
  import Wake = DispatchWake

  /**
   Callbacks left with the tokio side and not pushed; handlers that ended and still hold a slot; clients
   of unfinished requests, who may yet leave; notices due from those that left; the unfinished requests of
   those that left.
   */
  datatype Live = Live(base: State, registered: nat, finished: nat, clients: nat, owing: nat, absent: nat)

  datatype Act =
    | Thread(step: Label)
    | Register               // handler code leaves a callback: `notify`, `collect`, `on_close`, `notify_disconnect`
    | Finish(left: bool)     // a handler ends, its client having left or not; from then on leaving is no notice
    | Leave                  // a client leaves: its cell is abandoned, the notice is next

  function LiveInitial(producers: nat, limit: nat): Live {
    Live(Initial(producers, limit), 0, 0, 0, 0, 0)
  }

  predicate Allowed(l: Live, a: Label) {
    match a
    case PushOther(_, Wakeups, _) => l.registered > 0
    case PushOther(_, Cancels, _) => l.owing > 0
    case Release => l.finished > 0
    case Discard => l.absent > 0
    case _ => true
  }

  predicate LiveReady(l: Live, act: Act) {
    match act
    case Thread(a) => Ready(l.base, a) && Allowed(l, a)
    case Register => l.base.drainer.Asleep?
    case Finish(left) =>
      l.base.drainer.Asleep? && l.finished < l.base.inflight && (if left then l.absent > 0 else l.clients > 0)
    case Leave => l.clients > 0
  }

  /** What a step of the protocol takes from its surroundings' account, or adds to it. */
  function Spend(l: Live, a: Label): Live
    requires Allowed(l, a)
  {
    match a
    case PushRequest(_) => l.(clients := l.clients + 1)
    case PushOther(_, Wakeups, _) => l.(registered := l.registered - 1)
    case PushOther(_, Cancels, _) => l.(owing := l.owing - 1)
    case Release => l.(finished := l.finished - 1)
    case Discard => l.(absent := l.absent - 1)
    case _ => l
  }

  function LiveApply(l: Live, act: Act): Live
    requires LiveReady(l, act)
  {
    match act
    case Thread(a) => Spend(l, a).(base := Apply(l.base, a))
    case Register => l.(registered := l.registered + 1)
    case Finish(left) =>
      if left then l.(finished := l.finished + 1, absent := l.absent - 1)
      else l.(finished := l.finished + 1, clients := l.clients - 1)
    case Leave => l.(clients := l.clients - 1, owing := l.owing + 1, absent := l.absent + 1)
  }

  function LiveExec(l: Live, run: seq<Act>): Option<Live>
    decreases |run|
  {
    if run == [] then Some(l)
    else if LiveReady(l, run[0]) then LiveExec(LiveApply(l, run[0]), run[1..])
    else None
  }

  ghost predicate LiveReachable(l: Live, producers: nat, limit: nat) {
    exists run :: LiveExec(LiveInitial(producers, limit), run) == Some(l)
  }

  // ----- Its runs are runs of the protocol -----

  function Protocol(run: seq<Act>): seq<Label> {
    if run == [] then [] else (if run[0].Thread? then [run[0].step] else []) + Protocol(run[1..])
  }

  lemma {:induction false} RunsProject(l: Live, run: seq<Act>)
    requires LiveExec(l, run).Some?
    ensures Exec(l.base, Protocol(run)) == Some(LiveExec(l, run).value.base)
    decreases |run|
  {
    if run != [] {
      RunsProject(LiveApply(l, run[0]), run[1..]);
      if run[0].Thread? {
        assert Protocol(run)[1..] == Protocol(run[1..]);
      } else {
        assert Protocol(run) == Protocol(run[1..]);
      }
    }
  }

  ghost predicate Inv(l: Live) {
    Wake.Inv(l.base) && Admission.Inv(l.base) && Tallied(l)
  }

  /** Every request the worker holds is its client's, that of one who left, or finished. */
  predicate Tallied(l: Live) {
    l.clients + l.absent + l.finished == Admission.Held(l.base)
  }

  lemma TallyKept(l: Live, act: Act)
    requires Tallied(l) && LiveReady(l, act)
    ensures Tallied(LiveApply(l, act))
  {
    if act.Thread? && Wake.ByProducer(act.step) {
      assert LiveApply(l, act).base.drainer == l.base.drainer;
    }
  }

  lemma StepKeeps(l: Live, act: Act)
    requires Inv(l) && LiveReady(l, act)
    ensures Inv(LiveApply(l, act))
  {
    TallyKept(l, act);
    if act.Thread? {
      Wake.StepKeeps(l.base, act.step);
      Admission.StepKeeps(l.base, act.step);
    }
  }

  lemma {:induction false} RunKeeps(l: Live, run: seq<Act>)
    requires Inv(l) && LiveExec(l, run).Some?
    ensures Inv(LiveExec(l, run).value)
    decreases |run|
  {
    if run != [] {
      StepKeeps(l, run[0]);
      RunKeeps(LiveApply(l, run[0]), run[1..]);
    }
  }

  lemma ReachableHolds(l: Live, producers: nat, limit: nat)
    requires LiveReachable(l, producers, limit)
    ensures Inv(l) && Reachable(l.base, producers, limit)
  {
    var run :| LiveExec(LiveInitial(producers, limit), run) == Some(l);
    Wake.InitialHolds(producers, limit);
    Admission.InitialHolds(producers, limit);
    RunKeeps(LiveInitial(producers, limit), run);
    RunsProject(LiveInitial(producers, limit), run);
  }

  // ----- What a pass may still do -----

  function Ceiling(s: State): nat {
    s.limit + |s.producers|
  }

  /** Callbacks this pass may still run, notices it may still handle, requests it may still start. */
  function Callbacks(l: Live): nat {
    |l.base.wakeups| + l.registered
  }

  /** Those on their way, and one for each request it may hold but those whose client has left. */
  function Notices(l: Live): int {
    |l.base.cancels| + l.owing + Ceiling(l.base) - l.absent
  }

  function Claims(l: Live): int {
    Ceiling(l.base) - l.base.inflight + l.finished
  }

  /** The loops this pass has not left. */
  predicate InCallbacks(d: Drainer) {
    d.Drained? || d.StampCleared? || d == Popping(Wakeups)
  }

  predicate InNotices(d: Drainer) {
    InCallbacks(d) || d == Popping(Cancels)
  }

  predicate InRequests(d: Drainer) {
    InNotices(d) || d == Popping(Requests) || d.Holding?
  }

  function Stage(d: Drainer): int {
    if d.Asleep? then 0 else if d.Holding? then 6 else Rank(d)
  }

  /** The callback's steps to the end of its pass, but for requests it drops. */
  function PassLeft(l: Live): int {
    var d := l.base.drainer;
    Stage(d) + (if InCallbacks(d) then Callbacks(l) else 0)
    + (if InNotices(d) then Notices(l) else 0)
    + (if InRequests(d) then 2 * Claims(l) else 0)
  }

  /** It will reach queue `c` in this pass. */
  predicate Reaches(d: Drainer, c: Channel) {
    !d.Asleep? && !Passed(d, c)
  }

  /** Its steps to the item at place `k` of a queue it has not passed. */
  function ItemLeft(l: Live, c: Channel, k: nat): int {
    var d := l.base.drainer;
    (if c.Requests? then 2 else 1) * (k + 1) + Rank(d) - Rank(Popping(c))
    + (if InCallbacks(d) && !c.Wakeups? then Callbacks(l) else 0)
    + (if InNotices(d) && c.Requests? then Notices(l) else 0)
  }

  function Due(l: Live, c: Channel, k: nat): int {
    if Reaches(l.base.drainer, c) then ItemLeft(l, c, k) else PassLeft(l)
  }

  predicate Drops(act: Act) {
    act == Thread(Discard)
  }

  predicate OfCallback(act: Act) {
    act.Thread? && ByCallback(act.step)
  }

  /** The loop calls the drain callback anew. */
  predicate Starts(l: Live, act: Act) {
    act == Thread(Drain) && l.base.drainer.Asleep?
  }

  /** The step pops the first item of `c`. */
  predicate Takes(l: Live, act: Act, c: Channel) {
    act.Thread? && Pops(l.base, act.step, c)
  }

  lemma BoundsHold(l: Live)
    requires Inv(l)
    ensures Notices(l) >= 0 && Claims(l) >= 0
  {
    assert Admission.WithinAt(l.base, l.base.inflight);
  }

  lemma DueIsPositive(l: Live, c: Channel, k: nat)
    requires Inv(l)
    ensures Due(l, c, k) >= if l.base.drainer.Asleep? then 0 else 1
  {
    BoundsHold(l);
    match c case Wakeups => case Cancels => case Requests =>
  }

  /** Outside its own steps the account never grows within a pass. */
  lemma OthersAddNothing(l: Live, act: Act)
    requires LiveReady(l, act) && !OfCallback(act) && !l.base.drainer.Asleep?
    ensures var t := LiveApply(l, act);
      && t.base.drainer == l.base.drainer && Callbacks(t) <= Callbacks(l) && Notices(t) <= Notices(l)
      && Claims(t) <= Claims(l)
  {
  }

  /** The step pops an item, or settles one popped. */
  predicate Handles(l: Live, act: Act) {
    var d := l.base.drainer;
    d.Holding? || (act == Thread(Drain) && d.Popping? && Queue(l.base, d.from) != [])
  }

  lemma HandlingMoves(l: Live, act: Act)
    requires Inv(l) && LiveReady(l, act) && OfCallback(act) && Handles(l, act)
    ensures PassLeft(LiveApply(l, act)) + 1 <= PassLeft(l) + if Drops(act) then 2 else 0
  {
    BoundsHold(l);
    assert LiveApply(l, act).base.producers == l.base.producers;
  }

  lemma AccountStands(l: Live, act: Act)
    requires LiveReady(l, act) && OfCallback(act) && !Handles(l, act)
    ensures var t := LiveApply(l, act);
      Callbacks(t) == Callbacks(l) && Notices(t) == Notices(l) && Claims(t) == Claims(l)
  {
    QueuesStand(l.base, Drain);
    assert LiveApply(l, act).base.producers == l.base.producers;
  }

  lemma StageFalls(l: Live, act: Act)
    requires LiveReady(l, act) && OfCallback(act) && !Handles(l, act) && !l.base.drainer.Asleep?
    ensures var d, e := l.base.drainer, LiveApply(l, act).base.drainer;
      && Stage(e) + 1 <= Stage(d)
      && (InCallbacks(e) ==> InCallbacks(d)) && (InNotices(e) ==> InNotices(d)) && (InRequests(e) ==> InRequests(d))
  {
  }

  lemma TurningMoves(l: Live, act: Act)
    requires Inv(l) && LiveReady(l, act) && OfCallback(act) && !Handles(l, act) && !l.base.drainer.Asleep?
    ensures PassLeft(LiveApply(l, act)) + 1 <= PassLeft(l)
  {
    BoundsHold(l);
    AccountStands(l, act);
    StageFalls(l, act);
  }

  lemma PassMoves(l: Live, act: Act)
    requires Inv(l) && LiveReady(l, act) && OfCallback(act) && !l.base.drainer.Asleep?
    ensures PassLeft(LiveApply(l, act)) + 1 <= PassLeft(l) + if Drops(act) then 2 else 0
  {
    if Handles(l, act) {
      HandlingMoves(l, act);
    } else {
      TurningMoves(l, act);
    }
  }

  lemma HandlingNears(l: Live, act: Act, c: Channel, k: nat)
    requires LiveReady(l, act) && OfCallback(act) && Reaches(l.base.drainer, c) && Handles(l, act)
    requires k < |Queue(l.base, c)| && !(Takes(l, act, c) && k == 0)
    ensures var t, j := LiveApply(l, act), if Takes(l, act, c) then k - 1 else k;
      Reaches(t.base.drainer, c) && ItemLeft(t, c, j) + 1 <= ItemLeft(l, c, k)
  {
    assert LiveApply(l, act).base.producers == l.base.producers;
    match c case Wakeups => case Cancels => case Requests =>
  }

  lemma TurningNears(l: Live, act: Act, c: Channel, k: nat)
    requires Inv(l) && LiveReady(l, act) && OfCallback(act) && Reaches(l.base.drainer, c) && !Handles(l, act)
    requires k < |Queue(l.base, c)|
    ensures Reaches(LiveApply(l, act).base.drainer, c) && ItemLeft(LiveApply(l, act), c, k) + 1 <= ItemLeft(l, c, k)
  {
    BoundsHold(l);
    AccountStands(l, act);
    match c case Wakeups => case Cancels => case Requests =>
  }

  lemma ItemMoves(l: Live, act: Act, c: Channel, k: nat)
    requires Inv(l) && LiveReady(l, act) && OfCallback(act) && Reaches(l.base.drainer, c)
    requires k < |Queue(l.base, c)| && !(Takes(l, act, c) && k == 0)
    ensures var t, j := LiveApply(l, act), if Takes(l, act, c) then k - 1 else k;
      Reaches(t.base.drainer, c) && ItemLeft(t, c, j) + 1 <= ItemLeft(l, c, k)
  {
    if Handles(l, act) {
      HandlingNears(l, act, c, k);
    } else {
      TurningNears(l, act, c, k);
    }
  }

  /** Having passed it, it does not turn back before it sleeps. */
  lemma StaysPassed(l: Live, act: Act, c: Channel)
    requires LiveReady(l, act) && !Starts(l, act) && !Reaches(l.base.drainer, c)
    ensures !Reaches(LiveApply(l, act).base.drainer, c)
  {
    match c case Wakeups => case Cancels => case Requests =>
  }

  /** A step within a pass is paid for, unless it drops a request while a callback or a notice waits behind it. */
  lemma StepIsPaid(l: Live, act: Act, c: Channel, k: nat)
    requires Inv(l) && LiveReady(l, act) && !Starts(l, act)
    requires k < |Queue(l.base, c)| && !(Takes(l, act, c) && k == 0)
    ensures var t, j := LiveApply(l, act), if Takes(l, act, c) then k - 1 else k;
      Due(t, c, j) + (if OfCallback(act) then 1 else 0) <= Due(l, c, k) + if Drops(act) && !c.Requests? then 2 else 0
  {
    if l.base.drainer.Asleep? {
      assert !OfCallback(act) && LiveApply(l, act).base.drainer.Asleep?;
    } else if !OfCallback(act) {
      OthersAddNothing(l, act);
    } else if Reaches(l.base.drainer, c) {
      ItemMoves(l, act, c, k);
    } else {
      StaysPassed(l, act, c);
      PassMoves(l, act);
    }
  }

  lemma ItemStays(l: Live, act: Act, c: Channel, k: nat)
    requires LiveReady(l, act) && k < |Queue(l.base, c)| && !(Takes(l, act, c) && k == 0)
    ensures var t, j := LiveApply(l, act), if Takes(l, act, c) then k - 1 else k;
      j < |Queue(t.base, c)| && Queue(t.base, c)[j] == Queue(l.base, c)[k]
  {
    if act.Thread? {
      StepApproaches(l.base, act.step, c, k);
    }
  }

  // ----- Over runs -----

  /** Where the item at place `k` of `c` is after a run; None once it has been popped. */
  function LivePlace(l: Live, c: Channel, k: nat, run: seq<Act>): Option<nat>
    requires LiveExec(l, run).Some?
    decreases |run|
  {
    if run == [] then Some(k)
    else if Takes(l, run[0], c) then
      if k == 0 then None else LivePlace(LiveApply(l, run[0]), c, k - 1, run[1..])
    else LivePlace(LiveApply(l, run[0]), c, k, run[1..])
  }

  /** The callback's steps in a run, those that drop a request, and the passes it starts. */
  function StepsOf(run: seq<Act>): nat {
    if run == [] then 0 else (if OfCallback(run[0]) then 1 else 0) + StepsOf(run[1..])
  }

  function DropsOf(run: seq<Act>): nat {
    if run == [] then 0 else (if Drops(run[0]) then 1 else 0) + DropsOf(run[1..])
  }

  function PassesOf(l: Live, run: seq<Act>): nat
    requires LiveExec(l, run).Some?
    decreases |run|
  {
    if run == [] then 0 else (if Starts(l, run[0]) then 1 else 0) + PassesOf(LiveApply(l, run[0]), run[1..])
  }

  /** Passes still to begin before the item is reached. */
  function PassesLeft(d: Drainer, c: Channel): nat {
    if Reaches(d, c) then 0 else 1
  }

  lemma PassesFall(l: Live, act: Act, c: Channel, k: nat)
    requires LiveReady(l, act) && k < |Queue(l.base, c)| && !(Takes(l, act, c) && k == 0)
    ensures PassesLeft(LiveApply(l, act).base.drainer, c)
      + (if Starts(l, act) then 1 else 0) <= PassesLeft(l.base.drainer, c)
  {
    match c case Wakeups => case Cancels => case Requests =>
  }

  /** Whatever is queued is popped in this pass or in the next: while it is queued no second pass begins. */
  lemma {:induction false} PoppedByTheNextPass(l: Live, c: Channel, k: nat, run: seq<Act>)
    requires LiveExec(l, run).Some? && k < |Queue(l.base, c)| && LivePlace(l, c, k, run).Some?
    ensures var t, j := LiveExec(l, run).value, LivePlace(l, c, k, run).value;
      && j <= k && j < |Queue(t.base, c)| && Queue(t.base, c)[j] == Queue(l.base, c)[k]
      && PassesOf(l, run) + PassesLeft(t.base.drainer, c) <= PassesLeft(l.base.drainer, c) <= 1
    decreases |run|
  {
    if run != [] {
      ItemStays(l, run[0], c, k);
      PassesFall(l, run[0], c, k);
      PoppedByTheNextPass(LiveApply(l, run[0]), c, if Takes(l, run[0], c) then k - 1 else k, run[1..]);
    }
  }

  /**
   And a pass gets there: while an item is queued the callback takes, within one pass, at most `Due`
   steps; for a callback or a notice it has passed, two more for each request dropped meanwhile.
   */
  lemma {:induction false} ItemIsDue(l: Live, c: Channel, k: nat, run: seq<Act>)
    requires Inv(l) && LiveExec(l, run).Some? && k < |Queue(l.base, c)| && LivePlace(l, c, k, run).Some?
    requires PassesOf(l, run) == 0
    ensures var t, j := LiveExec(l, run).value, LivePlace(l, c, k, run).value;
      && Due(t, c, j) >= (if t.base.drainer.Asleep? then 0 else 1)
      && StepsOf(run) + Due(t, c, j) <= Due(l, c, k) + if c.Requests? then 0 else 2 * DropsOf(run)
    decreases |run|
  {
    if run == [] {
      DueIsPositive(l, c, k);
    } else {
      var j := if Takes(l, run[0], c) then k - 1 else k;
      StepKeeps(l, run[0]);
      ItemStays(l, run[0], c, k);
      StepIsPaid(l, run[0], c, k);
      ItemIsDue(LiveApply(l, run[0]), c, j, run[1..]);
    }
  }
}

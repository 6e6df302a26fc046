/** The counts are conserved: what a request took it gives back exactly once, whoever ends it. */
module LifecycleCounts {
  import opened Util
  import opened Lifecycle

  /** Claimed by worker `w`, and its Responder has not given the slot back. */
  function HoldsSlot(w: nat): Request -> bool {
    (q: Request) =>
      match q.stage
      case Claimed(v) => v == w
      case Created(v) => v == w
      case Attached(v) => v == w
      case Recalled(v) => v == w
      case Live(v) => v == w
      case Releasing(v, next) => v == w && next.Slot?
      case _ => false
  }

  /**
   In the connection's count: reserved, on its way, queued, held by the callback or by an unreleased
   Responder, or a refusal in progress.
   */
  predicate Counted(g: Stage) {
    match g
    case Arriving => false
    case Gone => false
    case Released(_) => false
    case Releasing(_, next) => next.Slot? || next.Connection?
    case _ => true
  }

  function CountedOn(c: nat): Request -> bool {
    (q: Request) => q.conn == Some(c) && Counted(q.stage)
  }

  /** Let in: counted, and not a refusal about to be undone. */
  function AdmittedOn(c: nat): Request -> bool {
    (q: Request) => q.conn == Some(c) && Counted(q.stage) && !q.stage.Refusing?
  }

  function RefusingOn(c: nat): Request -> bool {
    (q: Request) => q.conn == Some(c) && q.stage.Refusing?
  }

  ghost predicate SlotsAddUp(s: State, w: nat) {
    w < |s.inflight| ==> s.inflight[w] == Count(s.requests, HoldsSlot(w))
  }

  ghost predicate ConnectionAddsUp(s: State, c: nat) {
    c < |s.running| ==>
      && s.running[c] == Count(s.requests, CountedOn(c))
      && Count(s.requests, AdmittedOn(c)) <= MAX_STREAMS
  }

  ghost predicate Inv(s: State) {
    && WellFormed(s) && AllFlagged(s)
    && (forall w: nat :: SlotsAddUp(s, w))
    && (forall c: nat :: ConnectionAddsUp(s, c))
  }

  lemma InitialHolds(s: State)
    requires Initial(s)
    ensures Inv(s)
  {
    forall w: nat ensures SlotsAddUp(s, w) { CountBounds(s.requests, HoldsSlot(w)); }
    forall c: nat ensures ConnectionAddsUp(s, c) {
      CountBounds(s.requests, CountedOn(c));
      CountBounds(s.requests, AdmittedOn(c));
    }
  }

  /** A step of the release. */
  predicate Late(a: Action) {
    a.SwapReleased? || a.Return?
  }

  lemma OneMoveWithin(q: Request, a: Action, busy: int, workers: nat)
    requires Ready(q, a, workers) && Flagged(q) && Late(a)
    ensures var e := Next(q, a, busy, workers);
      q.conn.Some? ==> e.connection == Bit(Counted(e.request.stage)) - Bit(Counted(q.stage))
  {}

  lemma OneMoveBefore(q: Request, a: Action, busy: int, workers: nat)
    requires Ready(q, a, workers) && Flagged(q) && !Late(a)
    ensures var e := Next(q, a, busy, workers);
      q.conn.Some? ==> e.connection == Bit(Counted(e.request.stage)) - Bit(Counted(q.stage))
  {}

  /** What one step adds to the connection's count is what it changes about the request. */
  lemma OneMove(q: Request, a: Action, busy: int, workers: nat)
    requires Ready(q, a, workers) && Flagged(q)
    ensures var e := Next(q, a, busy, workers);
      q.conn.Some? ==> e.connection == Bit(Counted(e.request.stage)) - Bit(Counted(q.stage))
  {
    if Late(a) { OneMoveWithin(q, a, busy, workers); } else { OneMoveBefore(q, a, busy, workers); }
  }

  lemma SlotEffect(q: Request, a: Action, busy: int, workers: nat, w: nat)
    requires Ready(q, a, workers) && Flagged(q)
    ensures var e := Next(q, a, busy, workers);
      Bit(HoldsSlot(w)(e.request)) == Bit(HoldsSlot(w)(q)) + (if WorkerOf(q.stage) == Some(w) then e.slot else 0)
  {}

  lemma SlotsKept(s: State, r: nat, a: Action, w: nat)
    requires WellFormed(s) && AllFlagged(s) && Can(s, r, a) && SlotsAddUp(s, w)
    ensures SlotsAddUp(Apply(s, r, a), w)
  {
    var q := s.requests[r];
    SlotEffect(q, a, Busy(s, q), |s.inflight|, w);
    CountUpdate(s.requests, r, Next(q, a, Busy(s, q), |s.inflight|).request, HoldsSlot(w));
  }

  /** Only a successful take lets a request in, and it saw room. */
  lemma AdmitsOnlyWithRoom(q: Request, a: Action, busy: int, workers: nat, c: nat)
    requires Ready(q, a, workers) && Flagged(q)
    requires !AdmittedOn(c)(q) && AdmittedOn(c)(Next(q, a, busy, workers).request)
    ensures busy < MAX_STREAMS && q.conn == Some(c)
  {}

  lemma ConnectionKept(s: State, r: nat, a: Action, c: nat)
    requires WellFormed(s) && AllFlagged(s) && Can(s, r, a) && ConnectionAddsUp(s, c)
    ensures ConnectionAddsUp(Apply(s, r, a), c)
  {
    var q := s.requests[r];
    var p := Next(q, a, Busy(s, q), |s.inflight|).request;
    OneMove(q, a, Busy(s, q), |s.inflight|);
    NextKeepsPlace(q, a, Busy(s, q), |s.running|, |s.inflight|);
    CountUpdate(s.requests, r, p, CountedOn(c));
    CountUpdate(s.requests, r, p, AdmittedOn(c));
    AdmittedAreCounted(s.requests, c);
    if !AdmittedOn(c)(q) && AdmittedOn(c)(p) {
      AdmitsOnlyWithRoom(q, a, Busy(s, q), |s.inflight|, c);
    }
  }

  lemma {:induction false} AdmittedAreCounted(qs: seq<Request>, c: nat)
    ensures Count(qs, CountedOn(c)) == Count(qs, AdmittedOn(c)) + Count(qs, RefusingOn(c))
  {
    if qs != [] {
      AdmittedAreCounted(qs[..|qs| - 1], c);
    }
  }

  lemma StepKeeps(s: State, r: nat, a: Action)
    requires Inv(s) && Can(s, r, a)
    ensures Inv(Apply(s, r, a))
  {
    StepKeepsPlace(s, r, a);
    StepKeepsFlags(s, r, a);
    forall w: nat ensures SlotsAddUp(Apply(s, r, a), w) { SlotsKept(s, r, a, w); }
    forall c: nat ensures ConnectionAddsUp(Apply(s, r, a), c) { ConnectionKept(s, r, a, c); }
  }

  lemma {:induction false} RunKeeps(s: State, run: seq<(nat, Action)>)
    requires Inv(s) && Exec(s, run).Some?
    ensures Inv(Exec(s, run).value)
    decreases |run|
  {
    if run != [] {
      StepKeeps(s, run[0].0, run[0].1);
      RunKeeps(Apply(s, run[0].0, run[0].1), run[1..]);
    }
  }

  lemma ReachableHolds(s: State)
    requires Reachable(s)
    ensures Inv(s)
  {
    var s0, run :| Initial(s0) && Exec(s0, run) == Some(s);
    InitialHolds(s0);
    RunKeeps(s0, run);
  }

  /** A worker's in-flight count is exactly its claimed requests whose Responder has not released. */
  lemma InflightIsClaimed(s: State, w: nat)
    requires Reachable(s) && w < |s.inflight|
    ensures s.inflight[w] == Count(s.requests, HoldsSlot(w))
  {
    ReachableHolds(s);
    assert SlotsAddUp(s, w);
  }

  /**
   A connection's count is exactly what it has let in plus the refusals in progress, and it never
   lets in more than MAX_STREAMS, however takes, resets and releases interleave.
   */
  lemma ConnectionIsBounded(s: State, c: nat)
    requires Reachable(s) && c < |s.running|
    ensures s.running[c] == Count(s.requests, AdmittedOn(c)) + Count(s.requests, RefusingOn(c))
    ensures Count(s.requests, AdmittedOn(c)) <= MAX_STREAMS
  {
    ReachableHolds(s);
    assert ConnectionAddsUp(s, c);
    AdmittedAreCounted(s.requests, c);
  }

  /** A refusal was due: counting refusals still being undone, the connection was full. */
  lemma RefusalWasDue(s: State, r: nat)
    requires Reachable(s) && WellFormed(s) && Can(s, r, Take) && s.requests[r].conn.Some?
    ensures Apply(s, r, Take).requests[r].stage.Refusing? <==>
              var c := s.requests[r].conn.value;
              Count(s.requests, AdmittedOn(c)) + Count(s.requests, RefusingOn(c)) >= MAX_STREAMS
  {
    ConnectionIsBounded(s, s.requests[r].conn.value);
  }

  /** How far along a stage is. */
  function Rank(g: Stage): nat {
    match g
    case Arriving => 0 case Refusing => 1 case Reserved => 1 case HandedOver => 2 case Shedding => 3
    case Waiting(_) => 3 case Popped(_) => 4 case Skipping(_) => 5 case Chosen(_) => 5 case Claimed(_) => 6
    case Created(_) => 7 case Attached(_) => 8 case Recalled(_) => 9 case Live(_) => 10
    case Releasing(_, Slot) => 11 case Releasing(_, Connection) => 12 case Releasing(_, Answered) => 13
    case Releasing(_, Forgotten) => 14 case Released(_) => 15 case Gone => 15
  }

  lemma NeverBackWithin(q: Request, a: Action, busy: int, workers: nat)
    requires Ready(q, a, workers) && Flagged(q) && Late(a)
    ensures var e := Next(q, a, busy, workers);
      && Rank(e.request.stage) >= Rank(q.stage)
      && (e.connection != 0 || e.slot != 0 ==> Rank(e.request.stage) > Rank(q.stage))
  {}

  lemma NeverBackBefore(q: Request, a: Action, busy: int, workers: nat)
    requires Ready(q, a, workers) && Flagged(q) && !Late(a)
    ensures var e := Next(q, a, busy, workers);
      && Rank(e.request.stage) >= Rank(q.stage)
      && (e.connection != 0 || e.slot != 0 ==> Rank(e.request.stage) > Rank(q.stage))
  {}

  /** A request never goes back, and every step that moves a count moves it on: no count is returned twice. */
  lemma NeverBack(q: Request, a: Action, busy: int, workers: nat)
    requires Ready(q, a, workers) && Flagged(q)
    ensures var e := Next(q, a, busy, workers);
      && Rank(e.request.stage) >= Rank(q.stage)
      && (e.connection != 0 || e.slot != 0 ==> Rank(e.request.stage) > Rank(q.stage))
  {
    if Late(a) { NeverBackWithin(q, a, busy, workers); } else { NeverBackBefore(q, a, busy, workers); }
  }

  predicate SlotReturned(g: Stage) {
    g.Released? || (g.Releasing? && !g.next.Slot?)
  }

  predicate CountReturned(g: Stage) {
    g.Gone? || g.Released? || (g.Releasing? && (g.next.Answered? || g.next.Forgotten?))
  }

  /** How often, over a run, a request's slot and its place in the connection's count were given back. */
  function Returns(s: State, run: seq<(nat, Action)>, r: nat): (int, int)
    requires WellFormed(s) && Exec(s, run).Some?
    decreases |run|
  {
    if run == [] then (0, 0)
    else
      var (i, a) := run[0];
      var q := s.requests[i];
      var e := Next(q, a, Busy(s, q), |s.inflight|);
      StepKeepsPlace(s, i, a);
      var rest := Returns(Apply(s, i, a), run[1..], r);
      if i == r then (rest.0 + Bit(e.slot < 0), rest.1 + Bit(e.connection < 0)) else rest
  }

  lemma OneReturnWithin(q: Request, a: Action, busy: int, workers: nat)
    requires Ready(q, a, workers) && Flagged(q) && Late(a)
    ensures var e := Next(q, a, busy, workers);
      && Bit(e.slot < 0) == Bit(SlotReturned(e.request.stage)) - Bit(SlotReturned(q.stage))
      && (q.conn.Some? ==> Bit(e.connection < 0) == Bit(CountReturned(e.request.stage)) - Bit(CountReturned(q.stage)))
  {}

  lemma OneReturnBefore(q: Request, a: Action, busy: int, workers: nat)
    requires Ready(q, a, workers) && Flagged(q) && !Late(a)
    ensures var e := Next(q, a, busy, workers);
      && Bit(e.slot < 0) == Bit(SlotReturned(e.request.stage)) - Bit(SlotReturned(q.stage))
      && (q.conn.Some? ==> Bit(e.connection < 0) == Bit(CountReturned(e.request.stage)) - Bit(CountReturned(q.stage)))
  {}

  lemma OneReturn(q: Request, a: Action, busy: int, workers: nat)
    requires Ready(q, a, workers) && Flagged(q)
    ensures var e := Next(q, a, busy, workers);
      && Bit(e.slot < 0) == Bit(SlotReturned(e.request.stage)) - Bit(SlotReturned(q.stage))
      && (q.conn.Some? ==> Bit(e.connection < 0) == Bit(CountReturned(e.request.stage)) - Bit(CountReturned(q.stage)))
  {
    if Late(a) { OneReturnWithin(q, a, busy, workers); } else { OneReturnBefore(q, a, busy, workers); }
  }

  /** `release_once` is called for `r` somewhere in the run. */
  predicate Calls(run: seq<(nat, Action)>, r: nat) {
    exists k :: 0 <= k < |run| && run[k] == (r, SwapReleased)
  }

  lemma CallsFirst(run: seq<(nat, Action)>, r: nat)
    requires run != []
    ensures Calls(run, r) <==> run[0] == (r, SwapReleased) || Calls(run[1..], r)
  {
    if k :| 0 <= k < |run| && run[k] == (r, SwapReleased) {
      assert k > 0 ==> run[1..][k - 1] == run[k];
    }
    if k :| 0 <= k < |run[1..]| && run[1..][k] == (r, SwapReleased) {
      assert run[k + 1] == run[1..][k];
    }
  }

  lemma {:induction false} ReturnsAddUp(s: State, run: seq<(nat, Action)>, r: nat)
    requires WellFormed(s) && AllFlagged(s) && Exec(s, run).Some? && r < |s.requests|
    ensures |Exec(s, run).value.requests| == |s.requests| && AllFlagged(Exec(s, run).value)
    ensures var q, p := s.requests[r], Exec(s, run).value.requests[r];
      && Returns(s, run, r).0 == Bit(SlotReturned(p.stage)) - Bit(SlotReturned(q.stage))
      && (q.conn.Some? ==> Returns(s, run, r).1 == Bit(CountReturned(p.stage)) - Bit(CountReturned(q.stage)))
      && (p.released <==> q.released || Calls(run, r))
    decreases |run|
  {
    if run != [] {
      var (i, a) := run[0];
      var q := s.requests[i];
      StepKeepsPlace(s, i, a);
      StepKeepsFlags(s, i, a);
      NextKeepsPlace(q, a, Busy(s, q), |s.running|, |s.inflight|);
      OneReturn(q, a, Busy(s, q), |s.inflight|);
      CallsFirst(run, r);
      ReturnsAddUp(Apply(s, i, a), run[1..], r);
    }
  }

  /**
   Over any run, whichever of reply, `finish`, kept work, drop, refusal, reset or shedding ends it, and
   however many of them call `release_once` and lose its swap, a request gives its slot back once exactly
   if the run takes it past the release of the slot, else never; and likewise its place in the connection's
   count. A release is under way or done exactly if some call was made.
   */
  lemma ReturnedExactlyOnce(s: State, run: seq<(nat, Action)>, r: nat)
    requires Reachable(s) && WellFormed(s) && Exec(s, run).Some? && r < |s.requests|
    ensures |Exec(s, run).value.requests| == |s.requests|
    ensures var q, p := s.requests[r], Exec(s, run).value.requests[r];
      && Returns(s, run, r).0 == Bit(SlotReturned(p.stage)) - Bit(SlotReturned(q.stage))
      && (q.conn.Some? ==> Returns(s, run, r).1 == Bit(CountReturned(p.stage)) - Bit(CountReturned(q.stage)))
      && (p.stage.Releasing? || p.stage.Released? <==> q.released || Calls(run, r))
  {
    ReachableHolds(s);
    ReturnsAddUp(s, run, r);
    assert Flagged(Exec(s, run).value.requests[r]);
  }

  /** When every request is over, nothing is left in any count. */
  lemma NothingLeaks(s: State)
    requires Reachable(s)
    requires forall r :: 0 <= r < |s.requests| ==> s.requests[r].stage.Released? || s.requests[r].stage.Gone?
    ensures forall c :: 0 <= c < |s.running| ==> s.running[c] == 0
    ensures forall w :: 0 <= w < |s.inflight| ==> s.inflight[w] == 0
  {
    ReachableHolds(s);
    forall c | 0 <= c < |s.running| ensures s.running[c] == 0 {
      assert ConnectionAddsUp(s, c);
      CountBounds(s.requests, CountedOn(c));
    }
    forall w | 0 <= w < |s.inflight| ensures s.inflight[w] == 0 {
      assert SlotsAddUp(s, w);
      CountBounds(s.requests, HoldsSlot(w));
    }
  }
}

/**
 `enqueue` (src/server.rs) with everyone else's steps between its own. The request's thread is producer 0
 of each worker; any other thread, and each worker's callback, may step at any time.
 */
module RacedEnqueue {
  import opened Util
  import opened Dispatch
  import opened Enqueueing

  /** Where the thread is: within `try_push` on the worker it has come to, or done. */
  datatype Seeker = Trying(offset: nat) | Deciding(offset: nat) | Pushing(worker: nat) | Took(worker: nat) | Shed

  /** What `try_push` read of a worker: the queue's length, then the in-flight count. */
  datatype Look = Look(worker: nat, len: nat, inflight: nat, limit: nat)

  /** History: the looks that refused the request. */
  datatype Race = Race(workers: seq<State>, start: nat, item: nat, seeker: Seeker, refusals: seq<Look>)

  datatype Move = Mine | Other(worker: nat, step: Label)

  /** A label of the request's thread that its own moves account for. */
  predicate Own(a: Label) {
    match a
    case Measure(i, _) => i == 0
    case Decide(i) => i == 0
    case PushRequest(i) => i == 0
    case PushOther(i, _, _) => i == 0
    case _ => false
  }

  predicate Refuses(l: Look) {
    l.len + l.inflight >= l.limit
  }

  function At(r: Race): nat
    requires r.workers != []
  {
    match r.seeker
    case Trying(offset) => Nth(r.start, offset, |r.workers|)
    case Deciding(offset) => Nth(r.start, offset, |r.workers|)
    case Pushing(w) => if w < |r.workers| then w else 0
    case _ => 0
  }

  function Step(r: Race): Label {
    match r.seeker case Trying(_) => Measure(0, r.item) case Deciding(_) => Decide(0) case _ => PushRequest(0)
  }

  /** Nobody else pushes this request. */
  predicate Able(r: Race, m: Move) {
    match m
    case Mine => r.workers != [] && !r.seeker.Took? && !r.seeker.Shed? && Ready(r.workers[At(r)], Step(r))
    case Other(w, a) => w < |r.workers| && !Own(a) && Ready(r.workers[w], a) && (a.Measure? ==> a.item != r.item)
  }

  function After(r: Race, m: Move): Race
    requires Able(r, m)
  {
    match m
    case Other(w, a) => r.(workers := r.workers[w := Apply(r.workers[w], a)])
    case Mine =>
      var w := At(r);
      var s, t := r.workers[w], Apply(r.workers[w], Step(r));
      var moved := r.(workers := r.workers[w := t]);
      match r.seeker
      case Trying(offset) => moved.(seeker := Deciding(offset))
      case Deciding(offset) =>
        if t.producers[0].Admitted? then moved.(seeker := Pushing(w))
        else
          moved.(seeker := if offset + 1 < |r.workers| then Trying(offset + 1) else Shed,
                 refusals := r.refusals + [Look(w, s.producers[0].len, s.inflight, s.limit)])
      case _ => moved.(seeker := Took(w))
  }

  function Run(r: Race, moves: seq<Move>): Option<Race>
    decreases |moves|
  {
    if moves == [] then Some(r) else if Able(r, moves[0]) then Run(After(r, moves[0]), moves[1..]) else None
  }

  // ----- What each worker sees of it -----

  /** The step a move is for worker `w`, if it is one. */
  function Seen(r: Race, m: Move, w: nat): seq<Label>
    requires Able(r, m)
  {
    match m
    case Mine => if At(r) == w then [Step(r)] else []
    case Other(v, a) => if v == w then [a] else []
  }

  function SeenOver(r: Race, moves: seq<Move>, w: nat): seq<Label>
    requires Run(r, moves).Some?
    decreases |moves|
  {
    if moves == [] then [] else Seen(r, moves[0], w) + SeenOver(After(r, moves[0]), moves[1..], w)
  }

  /** For each worker the race is a run of its protocol. */
  lemma {:induction false} RaceProjects(r: Race, moves: seq<Move>, w: nat)
    requires Run(r, moves).Some? && w < |r.workers|
    ensures |Run(r, moves).value.workers| == |r.workers|
    ensures Exec(r.workers[w], SeenOver(r, moves, w)) == Some(Run(r, moves).value.workers[w])
    decreases |moves|
  {
    if moves != [] {
      var t := After(r, moves[0]);
      RaceProjects(t, moves[1..], w);
      var rest := SeenOver(t, moves[1..], w);
      if Seen(r, moves[0], w) == [] {
        assert SeenOver(r, moves, w) == rest;
      } else {
        assert SeenOver(r, moves, w)[1..] == rest;
      }
    }
  }

  predicate PushesIt(s: State, a: Label, item: nat) {
    a.PushRequest? && a.i < |s.producers| && s.producers[a.i] == Admitted(item)
  }

  /** How often a run of a worker's protocol pushes the request onto its queue. */
  function Pushes(s: State, run: seq<Label>, item: nat): nat
    requires Exec(s, run).Some?
    decreases |run|
  {
    if run == [] then 0 else (if PushesIt(s, run[0], item) then 1 else 0) + Pushes(Apply(s, run[0]), run[1..], item)
  }

  // ----- One queue or none -----

  predicate Has(p: Producer, item: nat) {
    (p.Measured? || p.Admitted?) && p.item == item
  }

  /** Any workers in any state, none of their threads with this request, and any place to start from. */
  ghost predicate Begins(r: Race) {
    && r.workers != [] && r.seeker == Trying(0) && r.refusals == []
    && (forall w :: 0 <= w < |r.workers| ==> r.workers[w].producers != [] && r.workers[w].producers[0].Resting?)
    && (forall w, i :: 0 <= w < |r.workers| && 0 <= i < |r.workers[w].producers| ==>
         !Has(r.workers[w].producers[i], r.item))
  }

  /** Only its own thread has the request, between its first look at a worker and its push there or refusal. */
  ghost predicate InOneHand(r: Race) {
    && r.workers != []
    && (r.seeker.Pushing? ==> r.seeker.worker < |r.workers|)
    && (forall w, i :: 0 <= w < |r.workers| && 0 <= i < |r.workers[w].producers| ==>
         Has(r.workers[w].producers[i], r.item) ==>
           i == 0 && w == At(r) && (r.seeker.Deciding? || r.seeker.Pushing?))
    && (r.seeker.Deciding? ==>
         r.workers[At(r)].producers != [] && r.workers[At(r)].producers[0].Measured?
         && r.workers[At(r)].producers[0].item == r.item)
    && (r.seeker.Pushing? ==>
         r.workers[At(r)].producers != [] && r.workers[At(r)].producers[0] == Admitted(r.item))
  }

  predicate TookBy(r: Race, w: nat) {
    r.seeker == Took(w)
  }

  lemma OtherKeepsHand(r: Race, m: Move)
    requires InOneHand(r) && Able(r, m) && m.Other?
    ensures InOneHand(After(r, m))
  {
    var s, t := r.workers[m.worker], Apply(r.workers[m.worker], m.step);
    forall i | 0 <= i < |t.producers| && Has(t.producers[i], r.item)
      ensures i < |s.producers| && Has(s.producers[i], r.item)
    {
    }
  }

  lemma MineKeepsHand(r: Race)
    requires InOneHand(r) && Able(r, Mine)
    ensures InOneHand(After(r, Mine))
  {
  }

  lemma MovePushes(r: Race, m: Move, w: nat)
    requires InOneHand(r) && Able(r, m) && w < |r.workers|
    ensures var seen := Seen(r, m, w);
      Bit(seen != [] && PushesIt(r.workers[w], seen[0], r.item)) + Bit(TookBy(r, w)) == Bit(TookBy(After(r, m), w))
  {
    var seen := Seen(r, m, w);
    if m.Other? && seen != [] && PushesIt(r.workers[w], m.step, r.item) {
      assert Has(r.workers[w].producers[m.step.i], r.item);
      assert false;
    }
  }

  lemma {:induction false} PushesOnce(r: Race, moves: seq<Move>, w: nat)
    requires InOneHand(r) && Run(r, moves).Some? && w < |r.workers|
    ensures Exec(r.workers[w], SeenOver(r, moves, w)).Some?
    ensures Pushes(r.workers[w], SeenOver(r, moves, w), r.item) + Bit(TookBy(r, w))
         == Bit(TookBy(Run(r, moves).value, w))
    decreases |moves|
  {
    RaceProjects(r, moves, w);
    if moves != [] {
      var t := After(r, moves[0]);
      MovePushes(r, moves[0], w);
      if moves[0].Mine? { MineKeepsHand(r); } else { OtherKeepsHand(r, moves[0]); }
      PushesOnce(t, moves[1..], w);
      if Seen(r, moves[0], w) == [] {
        assert SeenOver(r, moves, w) == SeenOver(t, moves[1..], w);
      } else {
        assert SeenOver(r, moves, w)[1..] == SeenOver(t, moves[1..], w);
      }
    }
  }

  // ----- Shed only where every worker refused -----

  /** How many workers have refused by now. */
  function Refusers(r: Race): nat {
    match r.seeker
    case Trying(offset) => offset
    case Deciding(offset) => offset
    case Shed => |r.workers|
    case _ => |r.refusals|
  }

  ghost predicate Sound(r: Race) {
    && r.workers != []
    && (r.seeker.Took? || r.seeker.Pushing? ==> r.seeker.worker < |r.workers|)
    && |r.refusals| == Refusers(r) <= |r.workers|
    && (r.seeker.Trying? || r.seeker.Deciding? ==> r.seeker.offset < |r.workers|)
    && (forall i :: 0 <= i < |r.refusals| ==>
         r.refusals[i].worker == Nth(r.start, i, |r.workers|) && Refuses(r.refusals[i]))
  }

  lemma MoveKeeps(r: Race, m: Move)
    requires Sound(r) && Able(r, m)
    ensures Sound(After(r, m)) && |After(r, m).workers| == |r.workers| && After(r, m).start == r.start
  {
  }

  lemma {:induction false} RunKeeps(r: Race, moves: seq<Move>)
    requires Sound(r) && Run(r, moves).Some?
    ensures Sound(Run(r, moves).value) && |Run(r, moves).value.workers| == |r.workers|
      && Run(r, moves).value.start == r.start
    decreases |moves|
  {
    if moves != [] {
      MoveKeeps(r, moves[0]);
      RunKeeps(After(r, moves[0]), moves[1..]);
    }
  }

  /**
   However it races, the request is pushed once in all: in the run that the race is for the worker that took
   it one step pushes it, in the others' none, and in nobody's before or if it is shed. And it is shed only
   after every worker, in its turn and once each, was found full at its own moment.
   */
  lemma OneQueueOrNone(r: Race, moves: seq<Move>)
    requires Begins(r) && Run(r, moves).Some?
    ensures var t := Run(r, moves).value;
      && |t.workers| == |r.workers|
      && (t.seeker.Took? ==> t.seeker.worker < |t.workers|)
      && (forall w :: 0 <= w < |r.workers| ==>
           var run := SeenOver(r, moves, w);
           && Exec(r.workers[w], run) == Some(t.workers[w])
           && Pushes(r.workers[w], run, r.item) == if TookBy(t, w) then 1 else 0)
      && (t.seeker.Shed? ==> |t.refusals| == |t.workers| && forall w :: 0 <= w < |t.workers| ==> FoundFull(t, w))
  {
    RunKeeps(r, moves);
    var t := Run(r, moves).value;
    forall w | 0 <= w < |r.workers|
      ensures Exec(r.workers[w], SeenOver(r, moves, w)) == Some(t.workers[w])
      ensures Pushes(r.workers[w], SeenOver(r, moves, w), r.item) == if TookBy(t, w) then 1 else 0
    {
      RaceProjects(r, moves, w);
      PushesOnce(r, moves, w);
    }
    if t.seeker.Shed? {
      forall w | 0 <= w < |t.workers|
        ensures FoundFull(t, w)
      {
        var i := Meets(t.start, w, |t.workers|);
        assert t.refusals[i].worker == w;
      }
    }
  }

  ghost predicate FoundFull(r: Race, w: nat) {
    exists i :: 0 <= i < |r.refusals| && r.refusals[i].worker == w && Refuses(r.refusals[i])
  }
}

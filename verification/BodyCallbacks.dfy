/** Every callback a reader leaves is scheduled on the loop exactly once, and none is dropped for want of a queue. */
module BodyCallbacks {
  import opened Util
  import opened Body
  import Bytes = BodyBytes
  import Wake = BodyWake

  function InPump(p: Pump): seq<nat> {
    match p case Handing(list, _) => list case _ => []
  }

  function InReader(r: Reader): seq<nat> {
    match r case Passing(list) => list case _ => []
  }

  /** Every callback made is in one place: waiting, being handed over, or scheduled. */
  ghost predicate Places(made: seq<nat>, waiting: seq<nat>, byPump: seq<nat>, byReader: seq<nat>, scheduled: seq<nat>) {
    && multiset(made) == multiset(waiting) + multiset(byPump) + multiset(byReader) + multiset(scheduled)
    && (forall i :: 0 <= i < |made| ==> made[i] == i)
  }

  ghost predicate Accounted(s: State) {
    s.past.lost == [] && Places(s.past.made, s.shared.waiters, InPump(s.pump), InReader(s.reader), s.past.scheduled)
  }

  lemma TakenByPump(made: seq<nat>, waiting: seq<nat>, byReader: seq<nat>, scheduled: seq<nat>)
    ensures Places(made, waiting, [], byReader, scheduled) <==> Places(made, [], waiting, byReader, scheduled)
    ensures Places(made, waiting, byReader, [], scheduled) <==> Places(made, [], byReader, waiting, scheduled)
  {}

  lemma PassedOn(made: seq<nat>, waiting: seq<nat>, list: seq<nat>, other: seq<nat>, scheduled: seq<nat>)
    requires list != []
    ensures Places(made, waiting, list, other, scheduled) ==>
      Places(made, waiting, list[1..], other, scheduled + [list[0]])
    ensures Places(made, waiting, other, list, scheduled) ==>
      Places(made, waiting, other, list[1..], scheduled + [list[0]])
  {
    assert list == [list[0]] + list[1..];
  }

  lemma OneMore(made: seq<nat>, waiting: seq<nat>, byPump: seq<nat>, byReader: seq<nat>, scheduled: seq<nat>)
    requires Places(made, waiting, byPump, byReader, scheduled)
    ensures Places(made + [|made|], waiting + [|made|], byPump, byReader, scheduled)
  {}

  /** The worker is known before the pump runs, and nobody wakes anybody before that. */
  ghost predicate KnownInTime(s: State) {
    && (s.past.polled ==> s.shared.bound)
    && (s.reader.Waking? ==> s.past.polled)
    && (!s.pump.Unpolled? && !s.pump.Gone? ==> s.past.polled)
  }

  /** A step that moves no callback. */
  predicate Still(s: State, t: State) {
    && t.past.made == s.past.made && t.past.lost == s.past.lost && t.past.scheduled == s.past.scheduled
    && t.shared.waiters == s.shared.waiters && InPump(t.pump) == InPump(s.pump)
    && InReader(t.reader) == InReader(s.reader)
  }

  predicate Moves(s: State, a: Label) {
    (a.PumpStep? && (s.pump.Taking? || s.pump.Handing?))
    || (a.ReaderStep? && (s.reader.Waking? || s.reader.Passing? || s.reader.NextWait? || s.reader.AllWait?))
  }

  lemma StillOutside(s: State, a: Label)
    requires Ready(s, a) && !a.ReaderStep? && !Moves(s, a)
    ensures Still(s, Apply(s, a))
  {}

  lemma StillReader(s: State)
    requires Ready(s, ReaderStep) && !Moves(s, ReaderStep)
    ensures Still(s, Apply(s, ReaderStep))
  {}

  /** What each of the moves makes of the places, without saying what that means for their sums. */
  lemma PumpMove(s: State)
    requires Moves(s, PumpStep) && s.shared.bound
    ensures var t := Apply(s, PumpStep);
      && t.past.made == s.past.made && t.past.lost == s.past.lost && InReader(t.reader) == InReader(s.reader)
      && (s.pump.Taking? ==> InPump(s.pump) == [] && InPump(t.pump) == s.shared.waiters && t.shared.waiters == []
                             && t.past.scheduled == s.past.scheduled)
      && (s.pump.Handing? ==> t.shared.waiters == s.shared.waiters)
      && (s.pump.Handing? && s.pump.list == [] ==>
           InPump(t.pump) == InPump(s.pump) && t.past.scheduled == s.past.scheduled)
      && (s.pump.Handing? && s.pump.list != [] ==>
            InPump(t.pump) == s.pump.list[1..] && t.past.scheduled == s.past.scheduled + [s.pump.list[0]])
  {}

  lemma ReaderMove(s: State)
    requires Moves(s, ReaderStep) && (s.reader.Waking? ==> s.shared.bound)
    ensures var t := Apply(s, ReaderStep);
      && t.past.lost == s.past.lost && InPump(t.pump) == InPump(s.pump)
      && (s.reader.Waking? ==>
            && InReader(s.reader) == [] && InReader(t.reader) == s.shared.waiters && t.shared.waiters == []
            && t.past.made == s.past.made && t.past.scheduled == s.past.scheduled)
      && (s.reader.Passing? ==> t.shared.waiters == s.shared.waiters && t.past.made == s.past.made)
      && (s.reader.Passing? && s.reader.list == [] ==>
           InReader(t.reader) == InReader(s.reader) && t.past.scheduled == s.past.scheduled)
      && (s.reader.Passing? && s.reader.list != [] ==>
            InReader(t.reader) == s.reader.list[1..] && t.past.scheduled == s.past.scheduled + [s.reader.list[0]])
      && (s.reader.NextWait? || s.reader.AllWait? ==>
            && t.past.made == s.past.made + [|s.past.made|] && t.shared.waiters == s.shared.waiters + [|s.past.made|]
            && InReader(t.reader) == InReader(s.reader) && t.past.scheduled == s.past.scheduled)
  {}

  lemma PumpMoves(s: State, t: State)
    requires Accounted(s) && KnownInTime(s) && Moves(s, PumpStep) && t == Apply(s, PumpStep)
    ensures Accounted(t)
  {
    PumpMove(s);
    if s.pump.Taking? {
      TakenByPump(s.past.made, s.shared.waiters, InReader(s.reader), s.past.scheduled);
    } else if s.pump.list != [] {
      PassedOn(s.past.made, s.shared.waiters, s.pump.list, InReader(s.reader), s.past.scheduled);
    }
  }

  lemma ReaderMoves(s: State, t: State)
    requires Accounted(s) && KnownInTime(s) && Moves(s, ReaderStep) && t == Apply(s, ReaderStep)
    ensures Accounted(t)
  {
    ReaderMove(s);
    if s.reader.Waking? {
      TakenByPump(s.past.made, s.shared.waiters, InPump(s.pump), s.past.scheduled);
    } else if s.reader.Passing? {
      if s.reader.list != [] {
        PassedOn(s.past.made, s.shared.waiters, s.reader.list, InPump(s.pump), s.past.scheduled);
      }
    } else {
      OneMore(s.past.made, s.shared.waiters, InPump(s.pump), InReader(s.reader), s.past.scheduled);
    }
  }

  lemma ReaderKeepsKnown(s: State)
    requires Bytes.Shape(s) && KnownInTime(s) && Ready(s, ReaderStep)
    ensures KnownInTime(Apply(s, ReaderStep))
  {
    assert s.pump == Apply(s, ReaderStep).pump || s.pump == First(false) || s.pump == Parked(false);
  }

  lemma OthersKeepKnown(s: State, a: Label)
    requires Bytes.Shape(s) && KnownInTime(s) && Ready(s, a) && !a.ReaderStep?
    ensures KnownInTime(Apply(s, a))
  {}

  lemma StepKeepsKnown(s: State, a: Label)
    requires Bytes.Shape(s) && KnownInTime(s) && Ready(s, a)
    ensures KnownInTime(Apply(s, a))
  {
    if a.ReaderStep? { ReaderKeepsKnown(s); } else { OthersKeepKnown(s, a); }
  }

  lemma StepKeeps(s: State, a: Label)
    requires Bytes.Inv(s) && Accounted(s) && KnownInTime(s) && Ready(s, a)
    ensures Accounted(Apply(s, a)) && KnownInTime(Apply(s, a))
  {
    StepKeepsKnown(s, a);
    if Moves(s, a) {
      if a.PumpStep? { PumpMoves(s, Apply(s, a)); } else { ReaderMoves(s, Apply(s, a)); }
    } else {
      if a.ReaderStep? { StillReader(s); } else { StillOutside(s, a); }
    }
  }

  lemma {:induction false} RunKeeps(s: State, run: seq<Label>)
    requires Bytes.Inv(s) && Accounted(s) && KnownInTime(s) && Exec(s, run).Some?
    ensures Bytes.Inv(Exec(s, run).value) && Accounted(Exec(s, run).value) && KnownInTime(Exec(s, run).value)
    decreases |run|
  {
    if run != [] {
      StepKeeps(s, run[0]);
      Bytes.StepKeeps(s, run[0]);
      RunKeeps(Apply(s, run[0]), run[1..]);
    }
  }

  /** Scheduled at most once and never dropped: in every reachable state each callback is in one place exactly. */
  lemma InOnePlace(s: State, callback: nat)
    requires Reachable(s) && callback < |s.past.made|
    ensures s.past.lost == []
    ensures multiset(s.shared.waiters)[callback] + multiset(InPump(s.pump))[callback]
            + multiset(InReader(s.reader))[callback] + multiset(s.past.scheduled)[callback] == 1
  {
    var client, run :| Exec(Initial(client), run) == Some(s);
    Bytes.InitialHolds(client);
    RunKeeps(Initial(client), run);
    CountsOnce(s.past.made, callback);
    assert multiset(s.past.made)[callback] == 1;
  }

  lemma {:induction false} CountsOnce(made: seq<nat>, callback: nat)
    requires forall i :: 0 <= i < |made| ==> made[i] == i
    ensures multiset(made)[callback] == if callback < |made| then 1 else 0
  {
    if made != [] {
      var last := |made| - 1;
      assert made == made[..last] + [made[last]];
      CountsOnce(made[..last], callback);
    }
  }

  /**
   Scheduled exactly once in the end: when the pump that ran is gone and the loop is in no reader's call,
   every callback made has been scheduled, once.
   */
  lemma ScheduledExactlyOnce(s: State, callback: nat)
    requires Reachable(s) && s.past.polled && s.pump.Gone? && s.reader.Resting?
    requires callback < |s.past.made|
    ensures multiset(s.past.scheduled)[callback] == 1
  {
    InOnePlace(s, callback);
    Wake.EndWakesEveryone(s);
  }

  /** For every client, a reader may leave a callback before the body knows its worker. */
  lemma WaiterMayComeFirst(c: Client)
    ensures exists s :: Reachable(s) && s.client == c && !s.shared.bound && s.shared.waiters != []
  {
    var s0 := Initial(c);
    assert Exec(s0, []) == Some(s0);
    var s1 := s0.(reader := AllWhole);
    Bytes.Go(s0, StartAll, s1);
    var s2 := s1.(reader := AllWait, shared := s1.shared.(whole := true));
    Bytes.Go(s1, ReaderStep, s2);
    var s3 := s2.(reader := AllDemand, shared := s2.shared.(waiters := [0]), past := s2.past.(made := [0]));
    Bytes.Go(s2, ReaderStep, s3);
    assert Reachable(s3) && s3.client == c && !s3.shared.bound && s3.shared.waiters != [];
  }

  lemma AllWaiting(made: seq<nat>, byPump: seq<nat>, byReader: seq<nat>, scheduled: seq<nat>)
    requires Places(made, made, byPump, byReader, scheduled)
    ensures byPump == [] && byReader == [] && scheduled == []
  {
    var all, p, r, l := multiset(made), multiset(byPump), multiset(byReader), multiset(scheduled);
    assert |all + p + r + l| == |all| + |p| + |r| + |l|;
    assert |p| == |byPump| && |r| == |byReader| && |l| == |scheduled|;
  }

  /** What makes that harmless: until the worker is known nobody calls anybody back, and every callback waits. */
  lemma NobodyWakesUnbound(s: State)
    requires Reachable(s) && !s.shared.bound
    ensures s.shared.waiters == s.past.made && s.past.scheduled == [] && s.past.lost == []
    ensures InPump(s.pump) == [] && InReader(s.reader) == []
  {
    var client, run :| Exec(Initial(client), run) == Some(s);
    Bytes.InitialHolds(client);
    RunKeeps(Initial(client), run);
    Wake.UntouchedTillPolled(Initial(client), run);
    AllWaiting(s.past.made, InPump(s.pump), InReader(s.reader), s.past.scheduled);
  }
}

/**
 Back-pressure without deadlock: a reader that waits is waited on by the client alone. And every
 callback a reader leaves is scheduled exactly once.
 */
module BodyWake {
  import opened Util
  import opened Body
  import Bytes = BodyBytes

  /** The reader's call will look once more before it parks. */
  predicate Rechecking(r: Reader) {
    r.NextCheck? || r.AllDemand? || r.AllCheck? || r.Waking?
  }

  /**
   The pump is about to take the waiters: `data` if it has just queued something, `end` if it has stored
   `finished`.
   */
  predicate AboutToWake(p: Pump, end: bool) {
    match p
    case Queueing(c) => end && IsMark(c)
    case Choosing(last) => end ==> last
    case Asking(last) => end && last
    case Taking(last) => end ==> last
    case _ => false
  }

  /** A parked reader with something to read, or at the end of the body, is about to be woken. */
  ghost predicate Woken(s: State) {
    s.shared.waiters != [] && !Rechecking(s.reader) ==>
      && (s.shared.chunks != [] && !s.shared.whole ==> AboutToWake(s.pump, false))
      && (s.shared.finished ==> AboutToWake(s.pump, true))
  }

  /** Between loading `buffered` above the high water and waiting on it. */
  predicate NearParking(p: Pump) {
    p.Over? || p.OverPartial? || p.Parking? || p == Parked(false)
  }

  /**
   The pump waits only above the high water and while no reader wants the body whole; whoever changes
   that leaves a permit.
   */
  ghost predicate Pressed(s: State) {
    && (s.pump == Parked(false) || s.pump == First(false) ==> !s.shared.permit)
    && (NearParking(s.pump) ==> s.shared.buffered > HIGH_WATER || s.shared.permit || s.reader.NextCrossed?)
    && (NearParking(s.pump) && !s.pump.Over? ==>
          !s.shared.whole || s.shared.permit || s.reader.AllWait? || s.reader.AllDemand?)
    && (s.reader.AllWait? || s.reader.AllDemand? || s.reader.AllCheck? || s.pump.Asking? ==> s.shared.whole)
  }

  /** The pump has been asked to start. */
  predicate Asked(s: State) {
    s.pump != First(false) && (s.pump.Unpolled? ==> s.shared.permit)
  }

  ghost predicate Started(s: State) {
    && (s.shared.finished ==> Asked(s))
    && (s.reader.NextWait? || s.reader.NextCheck? || s.reader.AllCheck? ==> Asked(s))
    && (s.shared.waiters != [] && !s.reader.AllDemand? ==> Asked(s))
  }

  ghost predicate Inv(s: State) {
    Bytes.Inv(s) && Woken(s) && Pressed(s) && Started(s)
  }

  lemma InitialHolds(client: Client)
    ensures Inv(Initial(client))
  {
    Bytes.InitialHolds(client);
  }

  lemma OutsideKeeps(s: State, a: Label)
    requires Inv(s) && Ready(s, a) && Bytes.Outside(a)
    ensures Woken(Apply(s, a)) && Pressed(Apply(s, a)) && Started(Apply(s, a))
  {
    assert Apply(s, a).shared.chunks == s.shared.chunks;
  }

  lemma PumpKeepsWoken(s: State)
    requires Inv(s) && Ready(s, PumpStep)
    ensures Woken(Apply(s, PumpStep))
  {}

  lemma SteeringKeepsPressed(s: State)
    requires Inv(s) && Steering(s.pump)
    ensures Pressed(Apply(s, PumpStep))
  {
    var t := Apply(s, PumpStep);
    assert t.shared == s.shared && t.reader == s.reader;
  }

  lemma PumpKeepsPressed(s: State)
    requires Inv(s) && Ready(s, PumpStep)
    ensures Pressed(Apply(s, PumpStep))
  {
    if Steering(s.pump) {
      SteeringKeepsPressed(s);
    } else {
      assert Apply(s, PumpStep).reader == s.reader;
    }
  }

  lemma PumpKeepsStarted(s: State)
    requires Inv(s) && Ready(s, PumpStep)
    ensures Started(Apply(s, PumpStep))
  {}

  lemma StartNextKeeps(s: State)
    requires Inv(s) && Ready(s, StartNext)
    ensures Woken(Apply(s, StartNext)) && Pressed(Apply(s, StartNext)) && Started(Apply(s, StartNext))
  {
    var t := Apply(s, StartNext);
    assert t.pump == s.pump && t.shared == s.shared.(chunks := t.shared.chunks);
  }

  lemma StartAllKeeps(s: State)
    requires Inv(s) && Ready(s, StartAll)
    ensures Woken(Apply(s, StartAll)) && Pressed(Apply(s, StartAll)) && Started(Apply(s, StartAll))
  {
    assert Apply(s, StartAll).pump == s.pump && Apply(s, StartAll).shared == s.shared;
  }

  lemma GlanceKeeps(s: State)
    requires Inv(s) && Glancing(s.reader)
    ensures Woken(Apply(s, ReaderStep)) && Pressed(Apply(s, ReaderStep)) && Started(Apply(s, ReaderStep))
  {}

  lemma DemandKeeps(s: State)
    requires Inv(s) && Bytes.Demanding(s.reader)
    ensures Woken(Apply(s, ReaderStep)) && Pressed(Apply(s, ReaderStep)) && Started(Apply(s, ReaderStep))
  {}

  lemma TakeKeeps(s: State)
    requires Inv(s) && s.reader.AllTake?
    ensures Woken(Apply(s, ReaderStep)) && Pressed(Apply(s, ReaderStep)) && Started(Apply(s, ReaderStep))
  {
    Bytes.TakeLeavesNothing(s);
    assert Apply(s, ReaderStep).pump == s.pump;
  }

  lemma MarkKeeps(s: State)
    requires Inv(s) && s.reader.NextMark?
    ensures Woken(Apply(s, ReaderStep)) && Pressed(Apply(s, ReaderStep)) && Started(Apply(s, ReaderStep))
  {
    assert Apply(s, ReaderStep).pump == s.pump;
  }

  lemma WaitKeeps(s: State)
    requires Inv(s) && (s.reader.NextWait? || s.reader.AllWait?)
    ensures Woken(Apply(s, ReaderStep)) && Pressed(Apply(s, ReaderStep)) && Started(Apply(s, ReaderStep))
  {
    assert Apply(s, ReaderStep).pump == s.pump;
  }

  lemma WakeKeeps(s: State)
    requires Inv(s) && (s.reader.Waking? || s.reader.Passing?)
    ensures Woken(Apply(s, ReaderStep)) && Pressed(Apply(s, ReaderStep)) && Started(Apply(s, ReaderStep))
  {
    assert Apply(s, ReaderStep).pump == s.pump;
  }

  lemma RestKeeps(s: State)
    requires Inv(s) && (s.reader.NextGot? || s.reader.AllWhole?)
    ensures Woken(Apply(s, ReaderStep)) && Pressed(Apply(s, ReaderStep)) && Started(Apply(s, ReaderStep))
  {
    assert Apply(s, ReaderStep).pump == s.pump;
  }

  lemma StepKeeps(s: State, a: Label)
    requires Inv(s) && Ready(s, a)
    ensures Inv(Apply(s, a))
  {
    Bytes.StepKeeps(s, a);
    if Bytes.Outside(a) { OutsideKeeps(s, a); }
    else if a.PumpStep? { PumpKeepsWoken(s); PumpKeepsPressed(s); PumpKeepsStarted(s); }
    else if a.StartNext? { StartNextKeeps(s); }
    else if a.StartAll? { StartAllKeeps(s); }
    else if Glancing(s.reader) { GlanceKeeps(s); }
    else if Bytes.Demanding(s.reader) { DemandKeeps(s); }
    else if s.reader.AllTake? { TakeKeeps(s); }
    else if s.reader.NextMark? { MarkKeeps(s); }
    else if s.reader.NextWait? || s.reader.AllWait? { WaitKeeps(s); }
    else if s.reader.Waking? || s.reader.Passing? { WakeKeeps(s); }
    else { RestKeeps(s); }
  }

  lemma {:induction false} RunKeeps(s: State, run: seq<Label>)
    requires Inv(s) && Exec(s, run).Some?
    ensures Inv(Exec(s, run).value)
    decreases |run|
  {
    if run != [] {
      StepKeeps(s, run[0]);
      RunKeeps(Apply(s, run[0]), run[1..]);
    }
  }

  lemma ReachableHolds(s: State)
    requires Reachable(s)
    ensures Inv(s)
  {
    var client, run :| Exec(Initial(client), run) == Some(s);
    InitialHolds(client);
    RunKeeps(Initial(client), run);
  }

  /** The pump waits for a demand that has not come. */
  predicate PumpParked(s: State) {
    s.pump == First(false) || s.pump == Parked(false)
  }

  /** A reader waits for its callback, and the loop is in no reader's call. */
  predicate ReaderParked(s: State) {
    s.reader.Resting? && s.shared.waiters != []
  }

  /** In no reachable state do the pump and a reader wait for each other. */
  lemma NoDeadlock(s: State)
    requires Reachable(s)
    ensures !(PumpParked(s) && ReaderParked(s))
  {
    ReachableHolds(s);
  }

  /**
   More: a parked reader is only ever kept waiting by the client. The pump can take a step of its own,
   or it is reading what the client sends, or its first poll is due; unless it was dropped before it was
   ever polled, which is before its drop guard exists.
   */
  lemma ParkedReaderWaitsOnClient(s: State)
    requires Reachable(s) && ReaderParked(s)
    ensures Ready(s, PumpStep) || s.pump.Reading? || s.pump.Lingering? || s.pump.Unpolled?
      || (s.pump.Gone? && !s.past.polled)
    ensures s.pump.Unpolled? ==> s.shared.permit
  {
    ReachableHolds(s);
    NoDeadlock(s);
  }

  /** Once the pump was polled, its end, for whatever reason, leaves no reader waiting. */
  lemma EndWakesEveryone(s: State)
    requires Reachable(s) && s.pump.Gone? && s.reader.Resting? && s.past.polled
    ensures s.shared.waiters == []
  {
    ReachableHolds(s);
  }

  /** Nothing has come and nobody was called back: no reader's call under way would find anything. */
  predicate Untouched(s: State) {
    && (s.pump.Unpolled? || s.pump.Gone?) && s.shared.chunks == [] && !s.shared.finished
    && s.shared.waiters == s.past.made
    && (s.reader.Resting? || Glancing(s.reader) || s.reader.NextDemand? || s.reader.NextWait?
        || s.reader.AllWhole? || s.reader.AllWait? || s.reader.AllDemand?)
  }

  /** The pump was dropped before its first poll. */
  predicate Stranded(s: State) {
    s.pump.Gone? && !s.past.polled && Untouched(s)
  }

  lemma {:induction false} UntouchedTillPolled(s: State, run: seq<Label>)
    requires Exec(s, run).Some? && (!s.past.polled ==> Untouched(s))
    ensures !Exec(s, run).value.past.polled ==> Untouched(Exec(s, run).value)
    decreases |run|
  {
    if run != [] {
      UntouchedTillPolled(Apply(s, run[0]), run[1..]);
    }
  }

  lemma StrandedStep(s: State, a: Label)
    requires Stranded(s) && Ready(s, a)
    ensures Stranded(Apply(s, a)) && s.shared.waiters <= Apply(s, a).shared.waiters
    ensures Apply(s, a).past.scheduled == s.past.scheduled
  {}

  /** Without that first poll they wait for ever: whatever runs from there, nobody who waits is ever called back. */
  lemma {:induction false} StrandedForEver(s: State, run: seq<Label>)
    requires Stranded(s) && Exec(s, run).Some?
    ensures s.shared.waiters <= Exec(s, run).value.shared.waiters
    ensures Exec(s, run).value.past.scheduled == s.past.scheduled
    decreases |run|
  {
    if run != [] {
      StrandedStep(s, run[0]);
      StrandedForEver(Apply(s, run[0]), run[1..]);
    }
  }

  /**
   Once the pump is gone, whoever left a callback is still waiting exactly if the pump was never polled;
   and then it is stranded.
   */
  lemma StrandedIffUnpolled(s: State)
    requires Reachable(s) && s.pump.Gone? && s.reader.Resting? && s.past.made != []
    ensures ReaderParked(s) <==> !s.past.polled
    ensures Stranded(s) <==> !s.past.polled
  {
    if s.past.polled {
      EndWakesEveryone(s);
    } else {
      var client, run :| Exec(Initial(client), run) == Some(s);
      UntouchedTillPolled(Initial(client), run);
    }
  }

  /** Such a state is reached for any client. */
  lemma UnpolledDropStrands(c: Client)
    ensures exists s :: Reachable(s) && s.client == c && s.pump.Gone? && ReaderParked(s)
  {
    var t := Bytes.AsksForAll(c);
    Bytes.Go(t, DropPump, t.(pump := Gone));
    assert ReaderParked(t.(pump := Gone));
  }

  /** The largest frame of the client's is at most `most`. */
  ghost predicate FramesWithin(c: Client, most: nat) {
    forall i :: 0 <= i < |c.frames| && c.frames[i].Payload? ==> |c.frames[i].bytes| <= most
  }

  /** The pump reads only below the high water, and pushes at most one frame above it. */
  ghost predicate Bounded(s: State, most: nat) {
    s.shared.whole ||
    (&& s.shared.buffered <= HIGH_WATER + most
     && (s.pump.Looking? ==> s.shared.buffered <= HIGH_WATER || s.shared.discard)
     && (s.pump.Reading? ==> s.shared.buffered <= HIGH_WATER)
     && (s.pump.Noting? && s.pump.chunk.Data? ==> s.shared.buffered <= HIGH_WATER && |s.pump.chunk.bytes| <= most))
  }

  lemma PumpKeepsBounded(s: State, most: nat)
    requires Inv(s) && Bounded(s, most) && Ready(s, PumpStep)
    ensures Bounded(Apply(s, PumpStep), most)
  {}

  lemma OutsideKeepsBounded(s: State, a: Label, most: nat)
    requires Inv(s) && Bounded(s, most) && Ready(s, a) && Bytes.Outside(a) && FramesWithin(s.client, most)
    ensures Bounded(Apply(s, a), most)
  {}

  lemma StepKeepsBounded(s: State, most: nat)
    requires Bounded(s, most) && Ready(s, ReaderStep)
    ensures Bounded(Apply(s, ReaderStep), most)
  {
    if Bytes.Plain(s.reader) {
      Bytes.PlainStep(s);
    } else {
      assert Apply(s, ReaderStep).pump == s.pump && Apply(s, ReaderStep).shared.buffered <= s.shared.buffered;
    }
  }

  /** Readers only take off `buffered`, or ask for the body whole. */
  lemma ReaderKeepsBounded(s: State, a: Label, most: nat)
    requires Bounded(s, most) && Ready(s, a) && (a.StartNext? || a.StartAll? || a.ReaderStep?)
    ensures Bounded(Apply(s, a), most)
  {
    if a.ReaderStep? {
      StepKeepsBounded(s, most);
    }
  }

  lemma {:induction false} RunKeepsBounded(s: State, run: seq<Label>, most: nat)
    requires Inv(s) && Bounded(s, most) && Exec(s, run).Some? && FramesWithin(s.client, most)
    ensures Bounded(Exec(s, run).value, most)
    decreases |run|
  {
    if run != [] {
      var a := run[0];
      StepKeeps(s, a);
      if a.PumpStep? { PumpKeepsBounded(s, most); }
      else if Bytes.Outside(a) { OutsideKeepsBounded(s, a, most); }
      else { ReaderKeepsBounded(s, a, most); }
      ClientStays(s, a);
      RunKeepsBounded(Apply(s, a), run[1..], most);
    }
  }

  lemma ClientStays(s: State, a: Label)
    requires Ready(s, a)
    ensures Apply(s, a).client == s.client
  {}

  lemma {:induction false} ClientStaysAlong(s: State, run: seq<Label>)
    requires Exec(s, run).Some?
    ensures Exec(s, run).value.client == s.client
    decreases |run|
  {
    if run != [] {
      ClientStays(s, run[0]);
      ClientStaysAlong(Apply(s, run[0]), run[1..]);
    }
  }

  /** Unless a reader asked for the body whole, what is buffered never exceeds the high water by more than one frame. */
  lemma BufferIsBounded(s: State, most: nat)
    requires Reachable(s) && FramesWithin(s.client, most) && !s.shared.whole
    ensures s.shared.buffered <= HIGH_WATER + most
  {
    var client, run :| Exec(Initial(client), run) == Some(s);
    ClientStaysAlong(Initial(client), run);
    InitialHolds(client);
    RunKeepsBounded(Initial(client), run, most);
  }
}

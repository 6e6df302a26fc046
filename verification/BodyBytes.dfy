/**
 What readers are handed is the client's body: in order, nothing twice, never more than `max_body`,
 and never called complete when it is not, except in one window between two stores of `push`.
 */
module BodyBytes {
  import opened Util
  import opened Body

  /** The bytes of the first `n` frames. */
  function Bytes(frames: seq<Frame>, n: nat): seq<nat>
    requires n <= |frames|
  {
    if n == 0 then []
    else Bytes(frames, n - 1) + (if frames[n - 1].Payload? then frames[n - 1].bytes else [])
  }

  /** The bytes of the data chunks. */
  function Stored(chunks: seq<Chunk>): seq<nat> {
    if chunks == [] then []
    else (if chunks[0].Data? then chunks[0].bytes else []) + Stored(chunks[1..])
  }

  /** Accepted by the pump and not yet in the chunks. */
  function InPump(p: Pump): seq<nat> {
    match p
    case Noting(Data(bytes)) => bytes
    case Queueing(Data(bytes)) => bytes
    case _ => []
  }

  function Counted(p: Pump): nat {
    match p case Queueing(Data(bytes)) => |bytes| case _ => 0
  }

  function Uncounted(r: Reader): nat {
    match r case NextGot(bytes) => |bytes| case _ => 0
  }

  /** The pump is past storing `finished`. */
  predicate Closing(p: Pump) {
    match p
    case Queueing(c) => IsMark(c)
    case Choosing(last) => last
    case Asking(last) => last
    case Taking(last) => last
    case Handing(_, last) => last
    case Ending => true
    case Gone => true
    case _ => false
  }

  ghost predicate DataOnly(chunks: seq<Chunk>) {
    forall i :: 0 <= i < |chunks| ==> chunks[i].Data?
  }

  /** Only the last chunk can be the marker. */
  ghost predicate Ordered(chunks: seq<Chunk>) {
    chunks != [] ==> DataOnly(chunks[..|chunks| - 1])
  }

  predicate MarkStored(s: State) {
    s.shared.chunks != [] && IsMark(s.shared.chunks[|s.shared.chunks| - 1])
  }

  predicate MarkQueueing(s: State) {
    s.pump.Queueing? && IsMark(s.pump.chunk)
  }

  /** The marker is in exactly one place once `finished` is stored, and nowhere before. */
  ghost predicate Shape(s: State) {
    && Ordered(s.shared.chunks)
    && (s.shared.finished ==> Closing(s.pump))
    && (Closing(s.pump) && !s.pump.Ending? && !s.pump.Gone? ==> s.shared.finished)
    && (s.shared.finished <==> MarkQueueing(s) || MarkStored(s) || s.reader.NextMark?)
    && (MarkQueueing(s) ==> !MarkStored(s) && !s.reader.NextMark?)
    && (s.reader.NextMark? ==> s.shared.chunks == [] && IsMark(s.reader.mark))
    && (s.reader.AllTake? ==> s.shared.finished)
    && (s.pump.Gone? && s.past.polled ==> s.shared.finished)
    && (s.pump.Unpolled? ==> !s.past.polled)
    && (!s.past.polled ==> (s.pump.Unpolled? || s.pump.Gone?) && s.shared.chunks == [] && !s.shared.finished)
  }

  /** Which marker, if the body has one. */
  function Mark(s: State): Option<Chunk> {
    if MarkStored(s) then Some(s.shared.chunks[|s.shared.chunks| - 1])
    else if MarkQueueing(s) then Some(s.pump.chunk)
    else if s.reader.NextMark? then Some(s.reader.mark)
    else None
  }

  /** Every accepted byte is in one place, and `buffered` counts what is stored and what is on its way in or out. */
  ghost predicate Flow(s: State) {
    && s.past.popped + Stored(s.shared.chunks) + InPump(s.pump) == s.past.accepted
    && s.shared.buffered == |Stored(s.shared.chunks)| + Counted(s.pump) + Uncounted(s.reader)
    && |s.past.accepted| <= s.client.maxBody
  }

  /** Popped bytes reached a reader, but for those a failing `take` threw away at the end. */
  ghost predicate Handed(s: State) {
    && s.past.handed <= s.past.popped
    && (s.past.handed == s.past.popped || (s.shared.finished && Stored(s.shared.chunks) == []))
    && (Mark(s) == Some(End) || Mark(s).None? ==> s.past.handed == s.past.popped)
  }

  /** Reading or about to: every frame read so far was accepted. */
  predicate InLoop(p: Pump) {
    match p
    case Lingering(_) => false
    case Noting(c) => !c.Failed?
    case Queueing(c) => c.Data?
    case Choosing(last) => !last
    case Asking(last) => !last
    case Taking(last) => !last
    case Handing(_, last) => !last
    case Ending => false
    case Gone => false
    case _ => true
  }

  /** What was accepted is what the client sent, up to some frame; a body marked End was accepted whole. */
  ghost predicate Faithful(s: State) {
    && s.past.used <= |s.client.frames|
    && (exists n: nat :: n <= s.past.used && s.past.accepted == Bytes(s.client.frames, n))
    && (InLoop(s.pump) ==> s.past.accepted == Bytes(s.client.frames, s.past.used))
    && (s.pump == Noting(End) || Mark(s) == Some(End) ==> s.past.accepted == Bytes(s.client.frames, |s.client.frames|))
  }

  ghost predicate Inv(s: State) {
    Shape(s) && Flow(s) && Handed(s) && Faithful(s)
  }

  lemma InitialHolds(client: Client)
    ensures Inv(Initial(client))
  {
    assert Bytes(client.frames, 0) == [];
  }

  lemma {:induction false} StoredAppend(chunks: seq<Chunk>, c: Chunk)
    ensures Stored(chunks + [c]) == Stored(chunks) + (if c.Data? then c.bytes else [])
  {
    if chunks == [] {
      assert [c][1..] == [];
    } else {
      assert (chunks + [c])[1..] == chunks[1..] + [c];
      StoredAppend(chunks[1..], c);
    }
  }

  /** `take` finds all the data there is, and leaves the marker if there is one. */
  lemma {:induction false} WholeIsStored(chunks: seq<Chunk>)
    requires Ordered(chunks)
    ensures Whole(chunks) == Stored(chunks)
    ensures Left(chunks) == (if chunks != [] && IsMark(chunks[|chunks| - 1]) then [chunks[|chunks| - 1]] else [])
  {
    if chunks != [] {
      if IsMark(chunks[0]) {
        assert chunks == [chunks[0]];
      } else {
        assert Ordered(chunks[1..]) by {
          if |chunks| > 1 { assert chunks[1..][..|chunks| - 2] == chunks[..|chunks| - 1][1..]; }
        }
        WholeIsStored(chunks[1..]);
      }
    }
  }

  /** Steps of the pump that push nothing. */
  predicate Quiet(p: Pump) { !Suspended(p) && !p.Noting? && !p.Queueing? }

  /** What happens to the pump from outside it, and what it receives. */
  predicate Outside(a: Label) {
    a.Bind? || a.Poll? || a.NextFrame? || a.IdleOut? || a.Lingered? || a.DropPump? || a.Discard?
  }

  lemma QuietKeepsShape(s: State)
    requires Shape(s) && Quiet(s.pump)
    ensures Shape(Apply(s, PumpStep))
  {
    assert Apply(s, PumpStep).shared.chunks == s.shared.chunks;
  }

  lemma OutsideKeepsShape(s: State, a: Label)
    requires Shape(s) && Ready(s, a) && Outside(a)
    ensures Shape(Apply(s, a))
  {
    assert Apply(s, a).shared.chunks == s.shared.chunks;
  }

  lemma PushKeepsShape(s: State)
    requires Shape(s) && (s.pump.Noting? || s.pump.Queueing?)
    ensures Shape(Apply(s, PumpStep))
  {
    if s.pump.Queueing? {
      assert (s.shared.chunks + [s.pump.chunk])[..|s.shared.chunks|] == s.shared.chunks;
    }
  }

  lemma TakeKeepsShape(s: State)
    requires Shape(s) && (s.reader.AllTake? || s.reader.NextMark?)
    ensures Shape(Apply(s, ReaderStep))
  {
    WholeIsStored(s.shared.chunks);
  }

  /** A reader's step that neither pops, puts back nor counts: what `t` keeps of `s`. */
  predicate Alike(s: State, t: State) {
    && t.client == s.client
    && t.shared.chunks == s.shared.chunks && t.shared.buffered == s.shared.buffered
    && t.shared.finished == s.shared.finished
    && t.past.accepted == s.past.accepted && t.past.popped == s.past.popped && t.past.handed == s.past.handed
    && t.past.used == s.past.used && t.past.polled == s.past.polled
    && (t.pump == s.pump || (s.pump == First(false) && t.pump == First(true))
         || (s.pump == Parked(false) && t.pump == Parked(true)))
    && t.reader.NextMark? == s.reader.NextMark? == false && !t.reader.NextGot?
    && (t.reader.AllTake? ==> s.reader.AllTake?)
  }

  predicate Plain(r: Reader) { !r.AllTake? && !r.NextMark? && !r.NextGot? && !r.Resting? }

  predicate Demanding(r: Reader) { r.NextDemand? || r.NextCrossed? || r.AllDemand? }

  lemma DemandStep(s: State)
    requires Demanding(s.reader)
    ensures Alike(s, Apply(s, ReaderStep))
  {}

  lemma PlainStep(s: State)
    requires Plain(s.reader)
    ensures Alike(s, Apply(s, ReaderStep))
  {
    if Demanding(s.reader) {
      DemandStep(s);
    } else {
      var t := Apply(s, ReaderStep);
      assert t.pump == s.pump && t.client == s.client;
    }
  }

  lemma AlikeKeepsShape(s: State, t: State)
    requires Shape(s) && Alike(s, t)
    ensures Shape(t)
  {}

  lemma GotKeepsShape(s: State)
    requires Shape(s) && s.reader.NextGot?
    ensures Shape(Apply(s, ReaderStep))
  {
    assert Apply(s, ReaderStep).shared.chunks == s.shared.chunks;
  }

  lemma StartKeepsShape(s: State, a: Label)
    requires Shape(s) && Ready(s, a) && (a.StartNext? || a.StartAll?)
    ensures Shape(Apply(s, a))
  {
    if s.shared.chunks != [] {
      assert s.shared.chunks[1..] != [] ==>
        s.shared.chunks[1..][..|s.shared.chunks| - 2] == s.shared.chunks[..|s.shared.chunks| - 1][1..];
    }
  }

  lemma ShapeKept(s: State, a: Label)
    requires Shape(s) && Ready(s, a)
    ensures Shape(Apply(s, a))
  {
    if Outside(a) { OutsideKeepsShape(s, a); }
    else if a.StartNext? || a.StartAll? { StartKeepsShape(s, a); }
    else if a.ReaderStep? {
      if s.reader.AllTake? || s.reader.NextMark? { TakeKeepsShape(s); }
      else if s.reader.NextGot? { GotKeepsShape(s); }
      else { PlainStep(s); AlikeKeepsShape(s, Apply(s, ReaderStep)); }
    }
    else if Quiet(s.pump) { QuietKeepsShape(s); } else { PushKeepsShape(s); }
  }

  lemma OutsideKeepsFlow(s: State, a: Label)
    requires Flow(s) && Ready(s, a) && Outside(a)
    ensures Flow(Apply(s, a))
  {}

  lemma QuietKeepsFlow(s: State)
    requires Flow(s) && Quiet(s.pump)
    ensures Flow(Apply(s, PumpStep))
  {
    var t := Apply(s, PumpStep);
    assert InPump(s.pump) == InPump(t.pump) == [] && Counted(s.pump) == Counted(t.pump) == 0;
  }

  lemma PushKeepsFlow(s: State)
    requires Flow(s) && (s.pump.Noting? || s.pump.Queueing?)
    ensures Flow(Apply(s, PumpStep))
  {
    if s.pump.Queueing? {
      StoredAppend(s.shared.chunks, s.pump.chunk);
    }
  }

  lemma TakeKeepsFlow(s: State)
    requires Shape(s) && Flow(s) && s.reader.AllTake?
    ensures Flow(Apply(s, ReaderStep))
  {
    TakeLeavesNothing(s);
    var t := Apply(s, ReaderStep);
    assert t.past.popped + [] == t.past.popped && t.past.popped == s.past.popped + Stored(s.shared.chunks);
  }

  lemma MarkKeepsFlow(s: State)
    requires Shape(s) && Flow(s) && s.reader.NextMark?
    ensures Flow(Apply(s, ReaderStep))
  {
    TakeLeavesNothing(s);
    assert Stored(s.shared.chunks) == [];
  }

  /** After a `take`, or with the marker put back, no data is stored. */
  lemma TakeLeavesNothing(s: State)
    requires Shape(s) && (s.reader.AllTake? || s.reader.NextMark?)
    ensures Stored(Apply(s, ReaderStep).shared.chunks) == []
    ensures s.reader.AllTake? ==> Whole(s.shared.chunks) == Stored(s.shared.chunks)
    ensures Mark(Apply(s, ReaderStep)) == Mark(s)
    ensures s.reader.AllTake? ==> Left(s.shared.chunks) == if MarkStored(s) then [Mark(s).value] else []
  {
    if s.reader.NextMark? {
      assert [s.reader.mark] + s.shared.chunks == [s.reader.mark] && [s.reader.mark][1..] == [];
    } else {
      WholeIsStored(s.shared.chunks);
      if MarkStored(s) { assert Left(s.shared.chunks)[1..] == []; }
    }
  }

  lemma AlikeKeepsFlow(s: State, t: State)
    requires Flow(s) && Alike(s, t) && Uncounted(s.reader) == 0
    ensures Flow(t)
  {}

  lemma GotKeepsFlow(s: State)
    requires Flow(s) && s.reader.NextGot?
    ensures Flow(Apply(s, ReaderStep))
  {}

  lemma StartKeepsFlow(s: State, a: Label)
    requires Shape(s) && Flow(s) && Ready(s, a) && (a.StartNext? || a.StartAll?)
    ensures Flow(Apply(s, a))
  {
    var t := Apply(s, a);
    if a.StartNext? && s.shared.chunks != [] && s.shared.chunks[0].Data? {
      assert t.past.popped + Stored(t.shared.chunks) == s.past.popped + Stored(s.shared.chunks);
    }
  }

  lemma FlowKept(s: State, a: Label)
    requires Shape(s) && Flow(s) && Ready(s, a)
    ensures Flow(Apply(s, a))
  {
    if Outside(a) { OutsideKeepsFlow(s, a); }
    else if a.StartNext? || a.StartAll? { StartKeepsFlow(s, a); }
    else if a.ReaderStep? {
      if s.reader.AllTake? { TakeKeepsFlow(s); }
      else if s.reader.NextMark? { MarkKeepsFlow(s); }
      else if s.reader.NextGot? { GotKeepsFlow(s); }
      else { PlainStep(s); AlikeKeepsFlow(s, Apply(s, ReaderStep)); }
    }
    else if Quiet(s.pump) { QuietKeepsFlow(s); } else { PushKeepsFlow(s); }
  }

  lemma OthersKeepHanded(s: State, a: Label)
    requires Shape(s) && Handed(s) && Ready(s, a) && (Outside(a) || a.PumpStep?)
    ensures Handed(Apply(s, a))
  {
    var t := Apply(s, a);
    assert t.past.handed == s.past.handed && t.past.popped == s.past.popped && t.reader == s.reader;
    if a.PumpStep? && s.pump.Queueing? {
      StoredAppend(s.shared.chunks, s.pump.chunk);
    } else {
      assert t.shared.chunks == s.shared.chunks;
    }
  }

  lemma AlikeKeepsMark(s: State, t: State)
    requires Alike(s, t)
    ensures Mark(t) == Mark(s) && InLoop(t.pump) == InLoop(s.pump) && (t.pump == Noting(End) <==> s.pump == Noting(End))
    ensures Handed(s) ==> Handed(t)
  {}

  lemma StartKeepsHanded(s: State, a: Label)
    requires Shape(s) && Handed(s) && Ready(s, a) && (a.StartNext? || a.StartAll?)
    ensures Handed(Apply(s, a)) && Mark(Apply(s, a)) == Mark(s)
  {}

  lemma TakeKeepsHanded(s: State)
    requires Shape(s) && Handed(s) && s.reader.AllTake?
    ensures Handed(Apply(s, ReaderStep)) && Mark(Apply(s, ReaderStep)) == Mark(s)
  {
    TakeLeavesNothing(s);
    assert Apply(s, ReaderStep).pump == s.pump;
  }

  lemma PutBackKeepsHanded(s: State)
    requires Shape(s) && Handed(s) && s.reader.NextMark?
    ensures Handed(Apply(s, ReaderStep)) && Mark(Apply(s, ReaderStep)) == Mark(s)
  {
    assert Apply(s, ReaderStep).pump == s.pump;
  }

  lemma GotKeepsHanded(s: State)
    requires Handed(s) && s.reader.NextGot?
    ensures Handed(Apply(s, ReaderStep)) && Mark(Apply(s, ReaderStep)) == Mark(s)
  {}

  lemma ReaderKeepsHanded(s: State, a: Label)
    requires Shape(s) && Handed(s) && Ready(s, a) && (a.StartNext? || a.StartAll? || a.ReaderStep?)
    ensures Handed(Apply(s, a)) && Mark(Apply(s, a)) == Mark(s)
  {
    if !a.ReaderStep? { StartKeepsHanded(s, a); }
    else if s.reader.AllTake? { TakeKeepsHanded(s); }
    else if s.reader.NextMark? { PutBackKeepsHanded(s); }
    else if s.reader.NextGot? { GotKeepsHanded(s); }
    else { PlainStep(s); AlikeKeepsMark(s, Apply(s, a)); }
  }

  lemma FrameKeepsFaith(s: State)
    requires Shape(s) && Faithful(s) && s.pump.Reading?
    ensures Faithful(Apply(s, NextFrame))
  {
    var t := Apply(s, NextFrame);
    if s.past.used < |s.client.frames| {
      assert t.past.accepted
        == Bytes(s.client.frames, if t.past.accepted == s.past.accepted then s.past.used else s.past.used + 1);
    }
  }

  /** `Faithful` looks at what was accepted, where the pump is in its loop, and whether the body is marked End. */
  lemma FaithFrame(s: State, t: State)
    requires Faithful(s)
    requires t.client == s.client && t.past.accepted == s.past.accepted && t.past.used == s.past.used
    requires InLoop(t.pump) ==> InLoop(s.pump)
    requires t.pump == Noting(End) || Mark(t) == Some(End) ==> s.pump == Noting(End) || Mark(s) == Some(End)
    ensures Faithful(t)
  {}

  lemma PumpKeepsFaith(s: State, a: Label)
    requires Shape(s) && Faithful(s) && Ready(s, a) && ((Outside(a) && !a.NextFrame?) || a.PumpStep?)
    ensures Faithful(Apply(s, a))
  {
    FaithFrame(s, Apply(s, a));
  }

  lemma ReaderLeavesAccount(s: State, a: Label)
    requires Ready(s, a) && (a.StartNext? || a.StartAll? || a.ReaderStep?)
    ensures var t := Apply(s, a);
      && t.client == s.client && t.past.accepted == s.past.accepted && t.past.used == s.past.used
      && (InLoop(t.pump) ==> InLoop(s.pump)) && (t.pump == Noting(End) ==> s.pump == Noting(End))
  {}

  lemma ReaderKeepsFaith(s: State, a: Label)
    requires Faithful(s) && Ready(s, a) && (a.StartNext? || a.StartAll? || a.ReaderStep?)
    requires Mark(Apply(s, a)) == Mark(s)
    ensures Faithful(Apply(s, a))
  {
    ReaderLeavesAccount(s, a);
    FaithFrame(s, Apply(s, a));
  }

  lemma StepKeeps(s: State, a: Label)
    requires Inv(s) && Ready(s, a)
    ensures Inv(Apply(s, a))
  {
    ShapeKept(s, a);
    FlowKept(s, a);
    if a.StartNext? || a.StartAll? || a.ReaderStep? {
      ReaderKeepsHanded(s, a);
      ReaderKeepsFaith(s, a);
    } else {
      OthersKeepHanded(s, a);
      if a.NextFrame? { FrameKeepsFaith(s); } else { PumpKeepsFaith(s, a); }
    }
  }

  lemma {:induction false} RunKeeps(s: State, run: seq<Label>)
    requires Inv(s) && Exec(s, run).Some?
    ensures Inv(Exec(s, run).value)
    decreases |run|
  {
    if run != [] {
      StepKeeps(s, run[0]);
      RunKeeps(Apply(s, run[0]), run[1..]);
    }
  }

  lemma ReachableHolds(s: State)
    requires Reachable(s)
    ensures Inv(s)
  {
    var client, run :| Exec(Initial(client), run) == Some(s);
    InitialHolds(client);
    RunKeeps(Initial(client), run);
  }

  lemma {:induction false} MonotoneBytes(frames: seq<Frame>, n: nat, m: nat)
    requires n <= m <= |frames|
    ensures Bytes(frames, n) <= Bytes(frames, m)
  {
    if n < m {
      MonotoneBytes(frames, n, m - 1);
    }
  }

  /** Every byte the client's frames carry. */
  function Sent(c: Client): seq<nat> {
    Bytes(c.frames, |c.frames|)
  }

  /**
   Over every run, what readers were handed, put together, is a prefix of what the client sent, and at
   most `max_body` long.
   */
  lemma DeliveryIsPrefix(s: State)
    requires Reachable(s)
    ensures s.past.handed <= Sent(s.client)
    ensures |s.past.handed| <= s.client.maxBody
  {
    ReachableHolds(s);
    var n: nat :| n <= s.past.used && s.past.accepted == Bytes(s.client.frames, n);
    MonotoneBytes(s.client.frames, n, |s.client.frames|);
    assert s.past.popped <= s.past.accepted;
  }

  /** `finished` is stored and the marker, not yet queued, is a failure. */
  predicate FailureDue(s: State) {
    s.shared.finished && s.pump.Queueing? && s.pump.chunk.Failed?
  }

  /** The answer is END and calls complete a body the pump found complete, all of it handed out by then. */
  predicate Complete(s: State, t: State) {
    && t.past.handed == Sent(s.client)
    && (Mark(s) == Some(End))
  }

  /** A reader iterating with `poll` sees END only once the whole body was handed out. */
  lemma PollEndIsComplete(s: State)
    requires Reachable(s) && s.reader.NextMark? && Answers(s) == Some(Ended([]))
    ensures Complete(s, Apply(s, ReaderStep))
  {
    ReachableHolds(s);
  }

  /**
   When `take` answers END, the answer is complete exactly when the reader did not land between the
   two stores of a failing push; in that window END comes with a body the pump had given up on.
   */
  lemma TakeEndIsCompleteIff(s: State)
    requires Reachable(s) && s.reader.AllTake? && Answers(s).value.Ended?
    ensures Complete(s, Apply(s, ReaderStep)) <==> !FailureDue(s)
  {
    ReachableHolds(s);
    WholeIsStored(s.shared.chunks);
    TakeLeavesNothing(s);
    StepKeeps(s, ReaderStep);
  }

  /** `take` answers a failure only for a body the pump failed. */
  lemma TakeFailureIsTrue(s: State)
    requires Reachable(s) && s.reader.AllTake? && Answers(s).value.Failing?
    ensures Mark(s) == Some(Failed(Answers(s).value.why))
  {
    ReachableHolds(s);
    WholeIsStored(s.shared.chunks);
  }

  /** The marker never changes, so every later answer at the end of the body is the same one. */
  lemma {:induction false} MarkIsSticky(s: State, run: seq<Label>)
    requires Inv(s) && Exec(s, run).Some? && Mark(s).Some?
    ensures Mark(Exec(s, run).value) == Mark(s)
    decreases |run|
  {
    if run != [] {
      OneStepKeepsMark(s, run[0]);
      StepKeeps(s, run[0]);
      MarkIsSticky(Apply(s, run[0]), run[1..]);
    }
  }

  lemma OneStepKeepsMark(s: State, a: Label)
    requires Inv(s) && Ready(s, a) && Mark(s).Some?
    ensures Mark(Apply(s, a)) == Mark(s)
  {
    if a.StartNext? || a.StartAll? || a.ReaderStep? {
      ReaderKeepsHanded(s, a);
    }
  }

  /** An answer at the end of a body says what its marker says, but for a `take` in the window of a failing push. */
  lemma AnswerIsTheMark(s: State)
    requires Reachable(s) && Answers(s).Some? && !Answers(s).value.Chunked?
    requires s.reader.AllTake? ==> !FailureDue(s)
    ensures Mark(s).Some?
    ensures Answers(s).value.Ended? <==> Mark(s) == Some(End)
    ensures Answers(s).value.Failing? ==> Mark(s) == Some(Failed(Answers(s).value.why))
  {
    ReachableHolds(s);
    if s.reader.AllTake? {
      WholeIsStored(s.shared.chunks);
    }
  }

  /** Three bytes in two frames, against a limit of two. */
  const TOO_MUCH: Client := Client([Payload([1]), Payload([2, 3])], None, 2)

  lemma Go(s: State, a: Label, t: State)
    requires Reachable(s) && Ready(s, a) && Apply(s, a) == t
    ensures Reachable(t)
  {
    ReachableStep(s, a);
  }

  lemma Steers(s: State, p: Pump)
    requires Reachable(s) && Steering(s.pump) && Steer(s.pump, s.shared, s.client) == p
    ensures Reachable(s.(pump := p))
  {
    ReachableStep(s, PumpStep);
  }

  /** From the top of its loop below the high water the pump goes to read. */
  lemma TopToReading(s: State)
    requires Reachable(s) && s.pump == Top && s.shared.buffered <= HIGH_WATER && !s.shared.discard
    ensures Reachable(s.(pump := Reading))
  {
    Steers(s, Looking);
    Steers(s.(pump := Looking), Reading);
  }

  lemma StartsAll(c: Client, s: State)
    requires s == State(c, Shared([], 0, false, false, true, false, true, []), Unpolled, AllWait, Initial(c).past)
    ensures Reachable(s)
  {
    var s0 := Initial(c);
    assert Exec(s0, []) == Some(s0);
    var s1 := s0.(shared := s0.shared.(bound := true));
    Go(s0, Bind, s1);
    var s2 := s1.(reader := AllWhole);
    Go(s1, StartAll, s2);
    Go(s2, ReaderStep, s);
  }

  /** A reader asks for the whole body before the pump's first poll, and waits. */
  lemma AsksForAll(c: Client) returns (s: State)
    ensures Reachable(s) && s == State(c, Shared([], 0, true, false, true, false, true, [0]), Unpolled, Resting,
                                       Past(0, [], [], [], [0], [], [], false))
  {
    var s0 := Initial(c);
    var s3 := State(c, Shared([], 0, false, false, true, false, true, []), Unpolled, AllWait, s0.past);
    StartsAll(c, s3);
    var s4 := s3.(reader := AllDemand, shared := s3.shared.(waiters := [0]), past := s3.past.(made := [0]));
    Go(s3, ReaderStep, s4);
    var s5 := s4.(reader := AllCheck, shared := s4.shared.(permit := true));
    Go(s4, ReaderStep, s5);
    s := s5.(reader := Resting);
    Go(s5, ReaderStep, s);
  }

  /** The pump gets as far as its first frame. */
  lemma GetsToRead(c: Client, s0: State) returns (s: State)
    requires c.declared.None? && Reachable(s0)
    requires s0 == State(c, Shared([], 0, true, false, true, false, true, [0]), Unpolled, Resting,
                         Past(0, [], [], [], [0], [], [], false))
    ensures Reachable(s) && s == State(c, Shared([], 0, false, false, true, false, true, [0]), Reading, Resting,
                                       Past(0, [], [], [], [0], [], [], true))
  {
    s := State(c, Shared([], 0, false, false, true, false, true, [0]), First(true), Resting,
               Past(0, [], [], [], [0], [], [], true));
    Go(s0, Poll, s);
    Steers(s, Began);
    Steers(s.(pump := Began), Sizing);
    Steers(s.(pump := Sizing), Top);
    TopToReading(s.(pump := Top));
    s := s.(pump := Reading);
  }

  /** The pump's two stores of a push of data. */
  lemma Pushes(s: State, bytes: seq<nat>)
    requires Reachable(s) && s.pump == Noting(Data(bytes))
    ensures Reachable(s.(pump := Choosing(false),
                         shared := s.shared.(chunks := s.shared.chunks + [Data(bytes)],
                                             buffered := s.shared.buffered + |bytes|)))
  {
    var t := s.(pump := Queueing(Data(bytes)), shared := s.shared.(buffered := s.shared.buffered + |bytes|));
    Go(s, PumpStep, t);
    ReachableStep(t, PumpStep);
  }

  /** Collecting whole, the pump wakes nobody for data and goes on to the next frame. */
  lemma Loops(s: State)
    requires Reachable(s) && s.pump == Choosing(false) && s.shared.whole && !s.shared.finished
    requires s.shared.buffered <= HIGH_WATER && !s.shared.discard
    ensures Reachable(s.(pump := Reading))
  {
    Steers(s, Asking(false));
    Steers(s.(pump := Asking(false)), Top);
    TopToReading(s.(pump := Top));
  }

  /** It queues the one byte of that frame, and goes back to read the next. */
  lemma QueuesOne(s0: State) returns (s: State)
    requires Reachable(s0)
    requires s0 == State(TOO_MUCH, Shared([], 0, false, false, true, false, true, [0]), Reading, Resting,
                         Past(0, [], [], [], [0], [], [], true))
    ensures Reachable(s) && s == State(TOO_MUCH, Shared([Data([1])], 1, false, false, true, false, true, [0]),
                                       Reading, Resting,
                                       Past(1, [1], [], [], [0], [], [], true))
  {
    var s1 := s0.(pump := Noting(Data([1])), past := s0.past.(used := 1, accepted := [1]));
    assert [] + [1] == [1];
    Go(s0, NextFrame, s1);
    Pushes(s1, [1]);
    assert s1.shared.chunks + [Data([1])] == [Data([1])] && |[1]| == 1;
    s := s1.(pump := Choosing(false), shared := s1.shared.(chunks := [Data([1])], buffered := 1));
    Loops(s);
    s := s.(pump := Reading);
  }

  /** The second frame is over the limit: the pump is between the two stores of its failing push as the reader takes. */
  lemma ReachesTheWindow() returns (s: State)
    ensures Reachable(s) && FailureDue(s) && s.reader.AllTake?
    ensures s.client == TOO_MUCH && s.shared.chunks == [Data([1])]
  {
    s := AsksForAll(TOO_MUCH);
    s := GetsToRead(TOO_MUCH, s);
    s := QueuesOne(s);
    var s1 := s.(pump := Lingering(Some(TooLarge)), past := s.past.(used := 2));
    Go(s, NextFrame, s1);
    var s2 := s1.(pump := Noting(Failed(TooLarge)));
    Go(s1, Lingered, s2);
    var s3 := s2.(pump := Queueing(Failed(TooLarge)), shared := s2.shared.(finished := true));
    Go(s2, PumpStep, s3);
    s := s3.(reader := AllTake);
    Go(s3, StartAll, s);
  }

  /** The window is real: a body over the limit is answered END, with its first byte for the whole. */
  lemma PartialBodyCanEnd()
    ensures exists s :: Reachable(s) && s.reader.AllTake? && s.client == TOO_MUCH
                        && Answers(s) == Some(Ended([1])) && Sent(s.client) == [1, 2, 3]
  {
    var s := ReachesTheWindow();
    assert [Data([1])][1..] == [];
    assert Whole(s.shared.chunks) == [1] + Whole([]) == [1];
    assert Left(s.shared.chunks) == Left([]) == [];
    assert Bytes(TOO_MUCH.frames, 0) == [];
    assert Bytes(TOO_MUCH.frames, 1) == [1];
    assert Bytes(TOO_MUCH.frames, 2) == [1] + [2, 3] == [1, 2, 3];
  }
}

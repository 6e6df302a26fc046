/**
 `BodyShared` and `BodyReader` of `src/body.rs` as the source writes them. Each method, run with
 nobody racing it, is proved to be a run of one side of the transition system of `Body`.
 */
module BodyReaders {
  import opened Util
  import B = Body

  datatype Polled = DATA(bytes: seq<nat>) | PENDING | END(whole: seq<nat>) | FAILED(why: B.Failure)

  /** A label and the reader's steps after it. */
  ghost function Run(first: B.Label, more: nat): (run: seq<B.Label>) {
    [first] + seq(more, _ => B.ReaderStep)
  }

  lemma Runs(s: B.State, first: B.Label, more: nat)
    requires B.Ready(s, first)
    ensures more == 0 ==> B.Exec(s, Run(first, more)) == Some(B.Apply(s, first))
    ensures more > 0 && B.Ready(B.Apply(s, first), B.ReaderStep) ==>
              B.Exec(s, Run(first, more)) == B.Exec(B.Apply(s, first), Run(B.ReaderStep, more - 1))
  {
    assert Run(first, more)[1..] == seq(more, _ => B.ReaderStep);
    if more > 0 {
      assert seq(more, _ => B.ReaderStep) == Run(B.ReaderStep, more - 1);
    }
  }

  /** So many steps of the pump. */
  ghost function Pumps(n: nat): (run: seq<B.Label>) {
    seq(n, _ => B.PumpStep)
  }

  lemma PumpsOne(s: B.State, n: nat)
    requires n > 0 && B.Ready(s, B.PumpStep)
    ensures B.Exec(s, Pumps(n)) == B.Exec(B.Apply(s, B.PumpStep), Pumps(n - 1))
    ensures B.Exec(s, Pumps(0)) == Some(s)
  {
    assert Pumps(n)[1..] == Pumps(n - 1);
  }

  /** What `push` makes of the shared state, and of the callbacks scheduled. */
  ghost function Pushed(s: B.State, c: B.Chunk): B.State
    requires s.shared.bound
  {
    var h := B.Note(s.shared, c);
    var queued := h.(chunks := h.chunks + [c]);
    if h.whole && !h.finished then s.(shared := queued, pump := B.AfterPush(B.IsMark(c)))
    else s.(shared := queued.(waiters := []), pump := B.AfterPush(B.IsMark(c)),
            past := s.past.(scheduled := s.past.scheduled + h.waiters))
  }

  lemma {:induction false} HandRun(s: B.State, list: seq<nat>, last: bool)
    requires s.pump == B.Handing(list, last)
    ensures B.Exec(s, Pumps(|list| + 1)) == Some(s.(pump := B.AfterPush(last),
                                                    past := s.past.(scheduled := s.past.scheduled + list)))
    decreases |list|
  {
    PumpsOne(s, |list| + 1);
    var t := B.Apply(s, B.PumpStep);
    if list == [] {
      assert s.past.scheduled + list == s.past.scheduled;
      assert Pumps(0) == [];
    } else {
      HandRun(t, list[1..], last);
      assert t.past.scheduled + list[1..] == s.past.scheduled + list;
    }
  }

  /** From having queued the chunk to having woken whoever waits. */
  lemma RouseRun(s: B.State, last: bool) returns (n: nat)
    requires s.pump == B.Choosing(last) && s.shared.bound
    ensures B.Exec(s, Pumps(n)) == Some(
              if s.shared.whole && !s.shared.finished then s.(pump := B.AfterPush(last))
              else s.(shared := s.shared.(waiters := []), pump := B.AfterPush(last),
                      past := s.past.(scheduled := s.past.scheduled + s.shared.waiters)))
  {
    var steps := |s.shared.waiters| + 2;
    if s.shared.whole {
      n := if s.shared.finished then 2 + steps else 2;
      PumpsOne(s, n);
      var t := s.(pump := B.Asking(last));
      PumpsOne(t, n - 1);
      if s.shared.finished { TakeRun(t.(pump := B.Taking(last)), last); } else { assert Pumps(0) == []; }
    } else {
      n := 1 + steps;
      PumpsOne(s, n);
      TakeRun(s.(pump := B.Taking(last)), last);
    }
  }

  lemma TakeRun(s: B.State, last: bool)
    requires s.pump == B.Taking(last) && s.shared.bound
    ensures B.Exec(s, Pumps(|s.shared.waiters| + 2)) == Some(
              s.(shared := s.shared.(waiters := []), pump := B.AfterPush(last),
                 past := s.past.(scheduled := s.past.scheduled + s.shared.waiters)))
  {
    PumpsOne(s, |s.shared.waiters| + 2);
    HandRun(B.Apply(s, B.PumpStep), s.shared.waiters, last);
  }

  lemma PushRun(s: B.State, c: B.Chunk) returns (n: nat)
    requires s.pump == B.Noting(c) && s.shared.bound
    ensures B.Exec(s, Pumps(n)) == Some(Pushed(s, c))
  {
    var t := B.Apply(B.Apply(s, B.PumpStep), B.PumpStep);
    n := RouseRun(t, B.IsMark(c));
    n := n + 2;
    PumpsOne(s, n);
    PumpsOne(B.Apply(s, B.PumpStep), n - 1);
  }

  /** What a reader's `wake` does, to its end. */
  ghost function Woken(s: B.State): B.State {
    s.(reader := B.Resting, shared := s.shared.(waiters := []),
       past := s.past.(scheduled := s.past.scheduled + s.shared.waiters))
  }

  lemma {:induction false} PassRun(s: B.State, list: seq<nat>)
    requires s.reader == B.Passing(list)
    ensures B.Exec(s, Run(B.ReaderStep, |list|)) ==
      Some(s.(reader := B.Resting, past := s.past.(scheduled := s.past.scheduled + list)))
    decreases |list|
  {
    Runs(s, B.ReaderStep, |list|);
    if list == [] {
      assert s.past.scheduled + list == s.past.scheduled;
    } else {
      var t := B.Apply(s, B.ReaderStep);
      PassRun(t, list[1..]);
      assert t.past.scheduled + list[1..] == s.past.scheduled + list;
    }
  }

  lemma WakeRun(s: B.State) returns (run: seq<B.Label>)
    requires s.reader.Waking? && s.shared.bound
    ensures B.Exec(s, run) == Some(Woken(s))
  {
    run := Run(B.ReaderStep, |s.shared.waiters| + 1);
    Runs(s, B.ReaderStep, |s.shared.waiters| + 1);
    PassRun(B.Apply(s, B.ReaderStep), s.shared.waiters);
  }

  lemma WakeAfter(s: B.State, run: seq<B.Label>) returns (more: seq<B.Label>)
    requires B.Exec(s, run).Some? && B.Exec(s, run).value.reader.Waking? && B.Exec(s, run).value.shared.bound
    ensures B.Exec(s, more) == Some(Woken(B.Exec(s, run).value))
  {
    var rest := WakeRun(B.Exec(s, run).value);
    B.ExecConcat(s, run, rest);
    more := run + rest;
  }

  /** `poll` with nothing queued. */
  ghost function AfterEmpty(s: B.State): B.State {
    (if s.shared.finished then s else B.Demand(s)).(reader := B.NextWait)
  }

  lemma EmptyRun(s: B.State) returns (run: seq<B.Label>)
    requires s.reader.Resting? && s.shared.chunks == []
    ensures B.Exec(s, run) == Some(AfterEmpty(s))
  {
    var more := if s.shared.finished then 1 else 2;
    run := Run(B.StartNext, more);
    Runs(s, B.StartNext, more);
    var t := B.Apply(s, B.StartNext);
    Runs(t, B.ReaderStep, more - 1);
    if more == 2 {
      Runs(B.Apply(t, B.ReaderStep), B.ReaderStep, 0);
    }
  }

  /** `poll` of a chunk of data. */
  ghost function AfterData(s: B.State, bytes: seq<nat>): B.State
    requires s.shared.chunks != []
  {
    var t := Popped(s, bytes);
    if s.shared.buffered > B.HIGH_WATER && t.shared.buffered <= B.HIGH_WATER then B.Demand(t) else t
  }

  ghost function Popped(s: B.State, bytes: seq<nat>): B.State
    requires s.shared.chunks != []
  {
    s.(shared := s.shared.(chunks := s.shared.chunks[1..], buffered := s.shared.buffered - |bytes|),
       past := s.past.(popped := s.past.popped + bytes, handed := s.past.handed + bytes))
  }

  lemma DataRun(s: B.State, bytes: seq<nat>) returns (run: seq<B.Label>)
    requires s.reader.Resting? && s.shared.chunks != [] && s.shared.chunks[0] == B.Data(bytes)
    ensures B.Exec(s, run) == Some(AfterData(s, bytes))
  {
    var crosses := s.shared.buffered > B.HIGH_WATER && s.shared.buffered - |bytes| <= B.HIGH_WATER;
    var more := if crosses then 2 else 1;
    run := Run(B.StartNext, more);
    Runs(s, B.StartNext, more);
    var t := B.Apply(s, B.StartNext);
    Runs(t, B.ReaderStep, more - 1);
    if crosses {
      Runs(B.Apply(t, B.ReaderStep), B.ReaderStep, 0);
    }
  }

  /** `poll` of the marker: it is put back. */
  lemma MarkRun(s: B.State) returns (run: seq<B.Label>)
    requires s.reader.Resting? && s.shared.chunks != [] && !s.shared.chunks[0].Data?
    ensures B.Exec(s, run) == Some(s)
  {
    run := Run(B.StartNext, 1);
    Runs(s, B.StartNext, 1);
    Runs(B.Apply(s, B.StartNext), B.ReaderStep, 0);
    assert [s.shared.chunks[0]] + s.shared.chunks[1..] == s.shared.chunks;
  }

  /** What `poll` answers. */
  function PollAnswer(chunks: seq<B.Chunk>): Polled {
    if chunks == [] then PENDING
    else match chunks[0] case Data(bytes) => DATA(bytes) case End => END([]) case Failed(why) => FAILED(why)
  }

  ghost function AfterPoll(s: B.State, r: Polled): B.State
    requires r == PollAnswer(s.shared.chunks)
  {
    if r.PENDING? then AfterEmpty(s) else if r.DATA? then AfterData(s, r.bytes) else s
  }

  lemma PollRun(s: B.State, r: Polled) returns (run: seq<B.Label>)
    requires s.reader.Resting? && r == PollAnswer(s.shared.chunks)
    ensures B.Exec(s, run) == Some(AfterPoll(s, r))
  {
    if r.PENDING? { run := EmptyRun(s); }
    else if r.DATA? { run := DataRun(s, r.bytes); }
    else { run := MarkRun(s); }
  }

  predicate Awaiting(p: B.Pump) {
    p == B.First(false) || p == B.Parked(false)
  }

  /** What a `poll` leaves of the shared state, and of the pump's wait. */
  lemma PollShared(s: B.State, r: Polled)
    requires r == PollAnswer(s.shared.chunks)
    ensures var t, h := AfterPoll(s, r), s.shared;
      var left := h.buffered - if r.DATA? then |r.bytes| else 0;
      var asks := (r.PENDING? && !h.finished) || (h.buffered > B.HIGH_WATER && left <= B.HIGH_WATER);
      && t.shared == h.(chunks := if r.DATA? then h.chunks[1..] else h.chunks, buffered := left,
                        permit := h.permit || (asks && !Awaiting(s.pump)))
      && t.past.scheduled == s.past.scheduled && Awaiting(t.pump) == (Awaiting(s.pump) && !asks)
  {
    if r.PENDING? {
      DemandShared(s);
    } else if r.DATA? {
      DemandShared(Popped(s, r.bytes));
    }
  }

  lemma DemandShared(s: B.State)
    ensures var t := B.Demand(s);
      && t.shared == s.shared.(permit := s.shared.permit || !Awaiting(s.pump)) && t.past == s.past
      && !Awaiting(t.pump)
  {
  }

  /** `notify` up to its second look at the chunks. */
  lemma NotifyRun(s: B.State) returns (run: seq<B.Label>)
    requires s.reader.NextWait?
    ensures B.Exec(s, run) == Some(B.Waits(s).(reader := if s.shared.chunks != [] then B.Waking else B.Resting))
  {
    run := Run(B.ReaderStep, 1);
    Runs(s, B.ReaderStep, 1);
    Runs(B.Apply(s, B.ReaderStep), B.ReaderStep, 0);
  }

  /** `collect` up to its last look at `finished`. */
  lemma CollectRun(s: B.State) returns (run: seq<B.Label>)
    requires s.reader.AllWhole?
    ensures B.Exec(s, run) == Some(B.Demand(B.Waits(s.(shared := s.shared.(whole := true)))).(reader :=
                                if s.shared.finished then B.Waking else B.Resting))
  {
    run := Run(B.ReaderStep, 3);
    Runs(s, B.ReaderStep, 3);
    var t := B.Apply(s, B.ReaderStep);
    Runs(t, B.ReaderStep, 2);
    t := B.Apply(t, B.ReaderStep);
    Runs(t, B.ReaderStep, 1);
    t := B.Apply(t, B.ReaderStep);
    Runs(t, B.ReaderStep, 0);
  }

  class BodyShared {
    var chunks: seq<B.Chunk>
    var buffered: int
    /** `Notify`: one permit, and whether the pump waits for it. */
    var permit: bool
    var waiting: bool
    var waiters: seq<nat>
    var bound: bool
    var finished: bool
    var whole: bool
    var discard: bool
    /** Callbacks handed to the worker's queue. */
    var scheduled: seq<nat>

    constructor ()
      ensures chunks == [] && buffered == 0 && waiters == [] && scheduled == []
      ensures !permit && !waiting && !bound && !finished && !whole && !discard
    {
      chunks, buffered, waiters, scheduled := [], 0, [], [];
      permit, waiting, bound, finished, whole, discard := false, false, false, false, false, false;
    }

    ghost predicate Shows(s: B.State)
      reads this
    {
      && s.shared == B.Shared(chunks, buffered, permit, finished, whole, discard, bound, waiters)
      && s.past.scheduled == scheduled
      && (waiting <==> Awaiting(s.pump))
    }

    method NotifyOne()
      modifies `permit, `waiting
      ensures !waiting && permit == (old(permit) || !old(waiting))
    {
      if waiting { waiting := false; } else { permit := true; }
    }

    /** Hands every waiting callback to the worker's queue. */
    method Wake()
      modifies `waiters, `scheduled
      ensures waiters == []
      ensures scheduled == if bound then old(scheduled) + old(waiters) else old(scheduled)
    {
      var list := waiters;
      waiters := [];
      if bound {
        var i := 0;
        while i < |list|
          invariant i <= |list| && scheduled == old(scheduled) + list[..i] && waiters == []
        {
          scheduled := scheduled + [list[i]];
          i := i + 1;
        }
        assert list[..i] == list;
      }
    }

    /** The pump's push: a chunk of data wakes nobody while the body is collected whole, its end always does. */
    method Push(chunk: B.Chunk, ghost s: B.State) returns (ghost n: nat)
      requires Shows(s) && s.pump == B.Noting(chunk) && bound
      modifies `chunks, `buffered, `finished, `waiters, `scheduled
      ensures chunks == old(chunks) + [chunk]
      ensures finished == (old(finished) || !chunk.Data?)
      ensures buffered == old(buffered) + if chunk.Data? then |chunk.bytes| else 0
      ensures whole && !finished ==> waiters == old(waiters) && scheduled == old(scheduled)
      ensures !(whole && !finished) ==> waiters == [] && scheduled == old(scheduled) + old(waiters)
      ensures B.Exec(s, Pumps(n)) == Some(Pushed(s, chunk)) && Shows(Pushed(s, chunk))
    {
      if chunk.Data? {
        buffered := buffered + |chunk.bytes|;
      } else {
        finished := true;
      }
      chunks := chunks + [chunk];
      n := PushRun(s, chunk);
      if whole && !finished {
        return;
      }
      Wake();
    }

    /** Takes bytes off `buffered`, and asks for more on falling to the high water. */
    method Uncount(n: nat)
      modifies `buffered, `permit, `waiting
      ensures buffered == old(buffered) - n
      ensures var falls := old(buffered) > B.HIGH_WATER && buffered <= B.HIGH_WATER;
        waiting == (old(waiting) && !falls) && permit == (old(permit) || (falls && !old(waiting)))
    {
      var before := buffered;
      buffered := buffered - n;
      if before > B.HIGH_WATER && before - n <= B.HIGH_WATER {
        NotifyOne();
      }
    }

    /** Never blocks; the marker is left for every later poll. */
    method PollChunks() returns (r: Polled)
      modifies `chunks, `buffered, `permit, `waiting
      ensures r == PollAnswer(old(chunks))
      ensures chunks == if r.DATA? then old(chunks)[1..] else old(chunks)
      ensures buffered == old(buffered) - if r.DATA? then |r.bytes| else 0
      ensures var asks := (r.PENDING? && !finished) || (old(buffered) > B.HIGH_WATER && buffered <= B.HIGH_WATER);
        waiting == (old(waiting) && !asks) && permit == (old(permit) || (asks && !old(waiting)))
    {
      if chunks == [] {
        if !finished {
          NotifyOne();
        }
        return PENDING;
      }
      var chunk := chunks[0];
      chunks := chunks[1..];
      match chunk {
        case Data(bytes) =>
          Uncount(|bytes|);
          r := DATA(bytes);
        case End =>
          chunks := [B.End] + chunks;
          r := END([]);
        case Failed(why) =>
          chunks := [B.Failed(why)] + chunks;
          r := FAILED(why);
      }
    }

    /** `poll` is a run of the reader's side of the transition system. */
    method Poll(ghost s: B.State) returns (r: Polled, ghost run: seq<B.Label>)
      requires Shows(s) && s.reader.Resting?
      modifies `chunks, `buffered, `permit, `waiting
      ensures r == PollAnswer(old(chunks))
      ensures chunks == if r.DATA? then old(chunks)[1..] else old(chunks)
      ensures B.Exec(s, run) == Some(AfterPoll(s, r)) && Shows(AfterPoll(s, r))
    {
      r := PollChunks();
      PollShared(s, r);
      run := PollRun(s, r);
    }

    /** After a `poll` that found nothing: installs a waiter, and wakes at once if something came meanwhile. */
    method Notify(callback: nat, ghost s: B.State) returns (ghost run: seq<B.Label>)
      requires Shows(s) && s.reader.NextWait? && callback == |s.past.made| && bound
      modifies `waiters, `scheduled
      ensures chunks == [] ==> waiters == old(waiters) + [callback] && scheduled == old(scheduled)
      ensures chunks != [] ==> waiters == [] && scheduled == old(scheduled) + (old(waiters) + [callback])
      ensures B.Exec(s, run).Some? && Shows(B.Exec(s, run).value) && B.Exec(s, run).value.reader.Resting?
    {
      waiters := waiters + [callback];
      run := NotifyRun(s);
      if chunks != [] {
        Wake();
        run := WakeAfter(s, run);
      }
    }

    /** After a `take` that found the body unfinished. */
    method Collect(callback: nat, ghost s: B.State) returns (ghost run: seq<B.Label>)
      requires Shows(s) && s.reader.AllWhole? && callback == |s.past.made| && bound
      modifies `whole, `waiters, `scheduled, `permit, `waiting
      ensures whole && !waiting
      ensures !finished ==> waiters == old(waiters) + [callback] && scheduled == old(scheduled)
      ensures finished ==> waiters == [] && scheduled == old(scheduled) + (old(waiters) + [callback])
      ensures B.Exec(s, run).Some? && Shows(B.Exec(s, run).value) && B.Exec(s, run).value.reader.Resting?
    {
      whole := true;
      waiters := waiters + [callback];
      NotifyOne();
      run := CollectRun(s);
      if finished {
        Wake();
        run := WakeAfter(s, run);
      }
    }

    /** Everything buffered, once the body has ended; nothing is taken while it is still arriving. */
    method Take(ghost s: B.State) returns (r: Polled, ghost run: seq<B.Label>)
      requires Shows(s) && s.reader.Resting?
      modifies `chunks, `buffered
      ensures r.PENDING? <==> !finished
      ensures r.PENDING? ==> chunks == old(chunks) && buffered == old(buffered)
      ensures !r.PENDING? ==> chunks == B.Left(old(chunks)) && buffered == old(buffered) - |B.Whole(old(chunks))|
      ensures r.END? ==> r.whole == B.Whole(old(chunks)) && (chunks == [] || chunks[0].End?)
      ensures r.FAILED? ==> chunks != [] && chunks[0] == B.Failed(r.why)
      ensures !r.DATA?
      ensures B.Exec(s, run).Some? && Shows(B.Exec(s, run).value)
      ensures B.Exec(s, run).value.reader == if r.PENDING? then B.AllWhole else B.Resting
    {
      run := Run(B.StartAll, if finished then 1 else 0);
      Runs(s, B.StartAll, if finished then 1 else 0);
      if !finished {
        return PENDING, run;
      }
      Runs(B.Apply(s, B.StartAll), B.ReaderStep, 0);
      r := TakeChunks();
    }

    /** The loop of `take`, under the lock. */
    method TakeChunks() returns (r: Polled)
      modifies `chunks, `buffered
      ensures chunks == B.Left(old(chunks)) && buffered == old(buffered) - |B.Whole(old(chunks))|
      ensures chunks != [] ==> !chunks[0].Data?
      ensures r == if chunks != [] && chunks[0].Failed? then FAILED(chunks[0].why) else END(B.Whole(old(chunks)))
    {
      var all := [];
      while chunks != []
        invariant all + B.Whole(chunks) == B.Whole(old(chunks)) && B.Left(chunks) == B.Left(old(chunks))
        invariant buffered == old(buffered) - |all|
        decreases |chunks|
      {
        var chunk := chunks[0];
        if !chunk.Data? {
          assert B.Whole(chunks) == [] && all + B.Whole(chunks) == all;
          // The marker is put back where it was.
          return if chunk.Failed? then FAILED(chunk.why) else END(all);
        }
        chunks := chunks[1..];
        buffered := buffered - |chunk.bytes|;
        all := all + chunk.bytes;
      }
      assert all + [] == all;
      r := END(all);
    }
  }
}

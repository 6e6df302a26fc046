/** No wakeup is lost, the socket holds at most one byte, and the stamp always times the current episode. */
module DispatchWake {
  import opened Util
  import opened Dispatch

  /** A thread that won the flag and has not written its byte. */
  predicate Owes(p: Producer) { p.Flipped? || p.Stamped? }

  function DrainerOwes(s: State): nat {
    if s.drainer.Rewaking? && Owes(s.drainer.step) then 1 else 0
  }

  /** The callback has consumed the byte and not yet lowered the flag. */
  predicate Answering(d: Drainer) { d.Drained? || d.StampCleared? }

  /** The callback will still look into queue `c` before it sleeps. */
  predicate StillDue(d: Drainer, c: Channel) {
    match d
    case Drained => true
    case StampCleared => true
    case Popping(Wakeups) => true
    case Popping(Cancels) => !c.Wakeups?
    case Popping(Requests) => c.Requests?
    case Holding(_) => c.Requests?
    case _ => false
  }

  /** The wake byte is in the socket or a thread is about to write it. */
  ghost predicate ByteComing(s: State) {
    s.notified && s.bytes + Count(s.producers, Owes) + DrainerOwes(s) == 1
  }

  predicate IsPushed(p: Producer) { p.Pushed? }
  predicate IsFlipped(p: Producer) { p.Flipped? }

  /** Some producer has queued an item and is about to swap the flag. */
  ghost predicate SomePushed(s: State) {
    Count(s.producers, IsPushed) > 0
  }

  ghost predicate NotLost(s: State, c: Channel) {
    Queue(s, c) != [] ==> StillDue(s.drainer, c) || ByteComing(s) || SomePushed(s)
  }

  ghost predicate SomeFlipped(s: State) {
    || Count(s.producers, IsFlipped) > 0
    || (s.drainer.Rewaking? && s.drainer.step.Flipped?)
  }

  /** Bytes in the socket plus threads about to write one: 1 while the flag is up and unanswered, else 0. */
  ghost predicate OneByte(s: State) {
    && s.bytes + Count(s.producers, Owes) + DrainerOwes(s)
         == (if s.notified && !Answering(s.drainer) then 1 else 0)
    && (Answering(s.drainer) ==> s.notified)
    && (s.drainer.Rewaking? ==> s.drainer.step.Pushed? || Owes(s.drainer.step))
    && s.flips == s.clears + (if s.notified then 1 else 0)
  }

  /** A stamp that is not IDLE was taken in the current, unanswered episode, at or after its flip. */
  ghost predicate StampCurrent(s: State) {
    && s.flippedAt <= s.now
    && (s.drainer.StampCleared? ==> s.stamp == IDLE)
    && (s.stamp.At? ==> s.notified && s.stampedFor == s.flips && s.flippedAt <= s.stamp.ms <= s.now && !SomeFlipped(s))
    && (s.stamp == IDLE && s.notified && !s.drainer.StampCleared? ==> SomeFlipped(s))
  }

  ghost predicate NoneLost(s: State) {
    NotLost(s, Wakeups) && NotLost(s, Cancels) && NotLost(s, Requests)
  }

  ghost predicate Inv(s: State) {
    OneByte(s) && StampCurrent(s) && NoneLost(s)
  }

  lemma InitialHolds(producers: nat, limit: nat)
    ensures Inv(Initial(producers, limit))
  {
    CountBounds(Initial(producers, limit).producers, Owes);
  }

  predicate ByProducer(a: Label) {
    a.Measure? || a.Decide? || a.PushRequest? || a.PushOther? || a.Swap? || a.StampIt? || a.Write?
  }

  /** What replacing producer `i` does to the three counts. */
  lemma Frame(s: State, a: Label)
    requires ByProducer(a) && Ready(s, a)
    ensures var p, q := s.producers[a.i], Apply(s, a).producers[a.i]; var after := Apply(s, a).producers;
      && Count(after, Owes) == Count(s.producers, Owes) - Bit(Owes(p)) + Bit(Owes(q))
      && Count(after, IsPushed) == Count(s.producers, IsPushed) - Bit(IsPushed(p)) + Bit(IsPushed(q))
      && Count(after, IsFlipped) == Count(s.producers, IsFlipped) - Bit(IsFlipped(p)) + Bit(IsFlipped(q))
  {
    var q := Apply(s, a).producers[a.i];
    assert Apply(s, a).producers == s.producers[a.i := q];
    CountUpdate(s.producers, a.i, q, Owes);
    CountUpdate(s.producers, a.i, q, IsPushed);
    CountUpdate(s.producers, a.i, q, IsFlipped);
  }

  /** Only a flipper owes, and the flag has one winner at a time. */
  lemma {:induction false} FlippedOwes(ps: seq<Producer>)
    ensures Count(ps, IsFlipped) <= Count(ps, Owes)
  {
    if ps != [] {
      FlippedOwes(ps[..|ps| - 1]);
    }
  }

  lemma OneByteKeptByProducer(s: State, a: Label)
    requires OneByte(s) && Ready(s, a) && ByProducer(a)
    ensures OneByte(Apply(s, a))
  {
    Frame(s, a);
  }

  lemma OneByteKept(s: State, a: Label)
    requires OneByte(s) && Ready(s, a)
    ensures OneByte(Apply(s, a))
  {
    if ByProducer(a) {
      OneByteKeptByProducer(s, a);
    } else {
      assert Apply(s, a).producers == s.producers;
    }
  }

  lemma StampKeptByProducer(s: State, a: Label)
    requires OneByte(s) && StampCurrent(s) && Ready(s, a) && ByProducer(a)
    ensures StampCurrent(Apply(s, a))
  {
    FlippedOwes(s.producers);
    Frame(s, a);
  }

  lemma StampKept(s: State, a: Label)
    requires OneByte(s) && StampCurrent(s) && Ready(s, a)
    ensures StampCurrent(Apply(s, a))
  {
    if ByProducer(a) {
      StampKeptByProducer(s, a);
    } else {
      FlippedOwes(s.producers);
      assert Apply(s, a).producers == s.producers;
    }
  }

  lemma LostKeptByProducer(s: State, a: Label, c: Channel)
    requires OneByte(s) && NotLost(s, c) && Ready(s, a) && ByProducer(a)
    ensures NotLost(Apply(s, a), c)
  {
    Frame(s, a);
    assert Apply(s, a).drainer == s.drainer;
  }

  lemma LostKept(s: State, a: Label, c: Channel)
    requires OneByte(s) && NotLost(s, c) && Ready(s, a)
    ensures NotLost(Apply(s, a), c)
  {
    OneByteKept(s, a);
    if ByProducer(a) {
      LostKeptByProducer(s, a, c);
    } else {
      assert Apply(s, a).producers == s.producers;
    }
  }

  /** Every step of every thread keeps the invariant. */
  lemma StepKeeps(s: State, a: Label)
    requires Inv(s) && Ready(s, a)
    ensures Inv(Apply(s, a))
  {
    OneByteKept(s, a);
    StampKept(s, a);
    LostKept(s, a, Wakeups);
    LostKept(s, a, Cancels);
    LostKept(s, a, Requests);
  }

  lemma {:induction false} RunKeeps(s: State, run: seq<Label>)
    requires Inv(s) && Exec(s, run).Some?
    ensures Inv(Exec(s, run).value)
    decreases |run|
  {
    if run != [] {
      StepKeeps(s, run[0]);
      RunKeeps(Apply(s, run[0]), run[1..]);
    }
  }

  lemma ReachableHolds(s: State, producers: nat, limit: nat)
    requires Reachable(s, producers, limit)
    ensures Inv(s)
  {
    var run :| Exec(Initial(producers, limit), run) == Some(s);
    InitialHolds(producers, limit);
    RunKeeps(Initial(producers, limit), run);
  }

  /**
   No wakeup is lost. In every reachable state, a queue that holds something is one the drain
   callback will still look into, or the wake byte is written or about to be, or a producer has
   just pushed and is about to swap the flag.
   */
  lemma NoLostWakeup(s: State, c: Channel, producers: nat, limit: nat)
    requires Reachable(s, producers, limit)
    requires Queue(s, c) != []
    ensures StillDue(s.drainer, c) || ByteComing(s) || SomePushed(s)
  {
    ReachableHolds(s, producers, limit);
    assert NotLost(s, c);
  }

  /**
   Never two unread bytes, so the socket buffer cannot fill; and one is there or coming exactly while a
   wake is unanswered.
   */
  lemma AtMostOneByte(s: State, producers: nat, limit: nat)
    requires Reachable(s, producers, limit)
    ensures s.bytes <= 1
    ensures s.bytes + Count(s.producers, Owes) + DrainerOwes(s) <= 1
    ensures s.bytes + Count(s.producers, Owes) + DrainerOwes(s) == 1 <==> s.notified && !Answering(s.drainer)
  {
    ReachableHolds(s, producers, limit);
  }

  /**
   What a liveness probe reads: the flag in one state, the stamp in a later one, the clock in one later
   still. `Some(d)` says a wake has gone unanswered for `d` milliseconds.
   */
  function WaitingFor(flag: State, stamp: State, clock: State): Option<nat> {
    if !flag.notified then None
    else if stamp.stamp == IDLE then None
    else Some(if clock.now < stamp.stamp.ms then 0 else clock.now - stamp.stamp.ms)
  }

  /**
   The probe never reports a finished episode, although its three reads are not one: an answer always
   times the episode that is unanswered at the load of the stamp, never for longer than since that episode
   began; and it says nothing in an unanswered episode only in the instant before the winner of the flag
   has stamped it. The episode may be answered before the clock is read; the answer is then late by as much.
   */
  lemma ProbeIsCurrent(flag: State, run: seq<Label>, stamp: State, more: seq<Label>, clock: State, producers: nat,
                       limit: nat)
    requires Reachable(flag, producers, limit) && Exec(flag, run) == Some(stamp) && Exec(stamp, more) == Some(clock)
    ensures var r := WaitingFor(flag, stamp, clock);
      && (r.Some? ==> && stamp.notified && stamp.flips == stamp.clears + 1 && stamp.stampedFor == stamp.flips
                      && r.value <= clock.now - stamp.flippedAt)
      && (r.None? && flag.notified && stamp.notified ==> SomeFlipped(stamp) || stamp.drainer.StampCleared?)
  {
    ReachableHolds(flag, producers, limit);
    RunKeeps(flag, run);
    ClockAdvances(stamp, more);
  }

  lemma {:induction false} ClockAdvances(s: State, run: seq<Label>)
    requires Exec(s, run).Some?
    ensures Exec(s, run).value.now >= s.now
    decreases |run|
  {
    if run != [] {
      ClockAdvances(Apply(s, run[0]), run[1..]);
    }
  }

  /**
   A push while a wake is pending never restarts the clock: over any run within one episode the stamp
   stays as taken until the callback answers.
   */
  lemma {:induction false} ClockNotRestarted(s: State, run: seq<Label>)
    requires Inv(s) && Exec(s, run).Some?
    requires s.stamp.At?
    requires Exec(s, run).value.flips == s.flips
    ensures var t := Exec(s, run).value;
      t.stamp == s.stamp || (t.stamp == IDLE && (t.drainer.StampCleared? || !t.notified))
    decreases |run|
  {
    if run != [] {
      var t := Apply(s, run[0]);
      StepKeeps(s, run[0]);
      FlipsGrow(t, run[1..]);
      OneStampStep(s, run[0]);
      if t.stamp.At? {
        ClockNotRestarted(t, run[1..]);
      } else {
        StaysIdle(t, run[1..]);
      }
    }
  }

  /** One step never changes a stamp except to IDLE, and only the answering callback does that. */
  lemma OneStampStep(s: State, a: Label)
    requires Inv(s) && Ready(s, a) && s.stamp.At?
    ensures Apply(s, a).stamp == s.stamp || (Apply(s, a).stamp == IDLE && a.Drain? && Apply(s, a).drainer.StampCleared?)
  {
    if a.StampIt? {
      CountUpdate(s.producers, a.i, Resting, IsFlipped);
    }
  }

  lemma {:induction false} FlipsGrow(s: State, run: seq<Label>)
    requires Exec(s, run).Some?
    ensures s.flips <= Exec(s, run).value.flips
    decreases |run|
  {
    if run != [] {
      FlipsGrow(Apply(s, run[0]), run[1..]);
    }
  }

  /** Once the callback has begun to answer, the stamp stays IDLE for as long as nobody flips the flag again. */
  lemma {:induction false} StaysIdle(s: State, run: seq<Label>)
    requires Inv(s) && Exec(s, run).Some? && Exec(s, run).value.flips == s.flips
    requires s.stamp == IDLE && (s.drainer.StampCleared? || !s.notified)
    ensures var t := Exec(s, run).value; t.stamp == IDLE && (t.drainer.StampCleared? || !t.notified)
    decreases |run|
  {
    if run != [] {
      var t := Apply(s, run[0]);
      StepKeeps(s, run[0]);
      FlipsGrow(t, run[1..]);
      if run[0].StampIt? { CountUpdate(s.producers, run[0].i, Resting, Owes); }
      StaysIdle(t, run[1..]);
    }
  }
}

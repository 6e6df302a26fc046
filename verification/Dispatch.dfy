/**
 One worker's hand-off queue as a labelled transition system: any number of
 producer threads, one drain callback, and one atomic operation per step.

 `src/queue.rs` (the producer side), `src/wake.rs` (the byte channel) and the
 loop of `Drainer::__call__` in `src/worker.rs`. Steps are sequentially
 consistent. Items are opaque numbers: a request, a callback or a cancel notice.
 */
module Dispatch {
  import opened Util

  /** The three queues, in the order the drain callback empties them. */
  datatype Channel = Wakeups | Cancels | Requests

  datatype Stamp = IDLE | At(ms: nat)

  /** Where a producer thread is. `Pushed` to `Stamped` are the three steps of `wake`. */
  datatype Producer =
    | Resting
    | Measured(len: nat, item: nat)   // read the queue's length, the in-flight count is next
    | Admitted(item: nat)             // saw room, has not pushed
    | Pushed                          // queued an item, swaps the flag next
    | Flipped                         // turned the flag on, stamps next
    | Stamped                         // writes the byte next

  /** Where the drain callback is. */
  datatype Drainer =
    | Asleep
    | Drained                         // emptied the socket
    | StampCleared                    // stored IDLE, clears the flag next
    | Popping(from: Channel)
    | Holding(item: nat)              // popped a request: drops it or claims it next
    | Checking(which: Channel)        // re-arm test, one queue at a time
    | Rewaking(step: Producer)        // its own call of `wake`

  datatype State = State(
    wakeups: seq<nat>, cancels: seq<nat>, requests: seq<nat>,
    notified: bool, stamp: Stamp, bytes: nat,
    inflight: nat, limit: nat,
    producers: seq<Producer>, drainer: Drainer,
    now: nat,
    // History: flips of the flag, times it was cleared, the flip the stamp was taken for, and when it happened.
    flips: nat, clears: nat, stampedFor: nat, flippedAt: nat)

  datatype Label =
    | Measure(i: nat, item: nat)            // try_push: load the queue's length
    | Decide(i: nat)                        // try_push: load the in-flight count, compare with the limit
    | PushRequest(i: nat)
    | PushOther(i: nat, to: Channel, item: nat)
    | Swap(i: nat)
    | StampIt(i: nat)
    | Write(i: nat)
    | Drain                                 // any step of the drain callback
    | Discard                               // drop a popped request whose client left
    | Release                               // a Responder gives its slot back
    | Tick

  function Queue(s: State, c: Channel): seq<nat> {
    match c case Wakeups => s.wakeups case Cancels => s.cancels case Requests => s.requests
  }

  function SetQueue(s: State, c: Channel, q: seq<nat>): State {
    match c
    case Wakeups => s.(wakeups := q)
    case Cancels => s.(cancels := q)
    case Requests => s.(requests := q)
  }

  function Initial(producers: nat, limit: nat): State {
    State([], [], [], false, IDLE, 0, 0, limit, seq(producers, _ => Resting), Asleep, 0, 0, 0, 0, 0)
  }

  predicate Ready(s: State, a: Label) {
    match a
    case Measure(i, _) => i < |s.producers| && s.producers[i].Resting?
    case Decide(i) => i < |s.producers| && s.producers[i].Measured?
    case PushRequest(i) => i < |s.producers| && s.producers[i].Admitted?
    case PushOther(i, to, _) => i < |s.producers| && s.producers[i].Resting? && !to.Requests?
    case Swap(i) => i < |s.producers| && s.producers[i].Pushed?
    case StampIt(i) => i < |s.producers| && s.producers[i].Flipped?
    case Write(i) => i < |s.producers| && s.producers[i].Stamped?
    // The loop calls the drainer only while the socket has something to read.
    case Drain => s.drainer.Asleep? ==> s.bytes > 0
    case Discard => s.drainer.Holding?
    case Release => s.inflight > 0
    case Tick => true
  }

  function Put(s: State, i: nat, p: Producer): State
    requires i < |s.producers|
  {
    s.(producers := s.producers[i := p])
  }

  /** The flag's swap, for a producer or for the drainer's own re-arm: the new state and whether this thread won. */
  function SwapFlag(s: State): (State, bool) {
    if s.notified then (s, false) else (s.(notified := true, flips := s.flips + 1, flippedAt := s.now), true)
  }

  function StoreStamp(s: State): State {
    s.(stamp := At(s.now), stampedFor := s.flips)
  }

  function DrainStep(s: State): State
    requires Ready(s, Drain)
  {
    match s.drainer
    case Asleep => s.(drainer := Drained, bytes := 0)
    case Drained => s.(drainer := StampCleared, stamp := IDLE)
    case StampCleared => s.(drainer := Popping(Wakeups), notified := false, clears := s.clears + 1)
    case Popping(Wakeups) =>
      if s.wakeups == [] then s.(drainer := Popping(Cancels)) else s.(wakeups := s.wakeups[1..])
    case Popping(Cancels) =>
      if s.cancels == [] then s.(drainer := Popping(Requests)) else s.(cancels := s.cancels[1..])
    case Popping(Requests) =>
      if s.requests == [] then s.(drainer := Checking(Requests))
      else s.(requests := s.requests[1..], drainer := Holding(s.requests[0]))
    case Holding(_) => s.(drainer := Popping(Requests), inflight := s.inflight + 1)
    case Checking(Requests) => s.(drainer := if s.requests != [] then Rewaking(Pushed) else Checking(Wakeups))
    case Checking(Wakeups) => s.(drainer := if s.wakeups != [] then Rewaking(Pushed) else Checking(Cancels))
    case Checking(Cancels) => s.(drainer := if s.cancels != [] then Rewaking(Pushed) else Asleep)
    case Rewaking(Pushed) =>
      var (t, won) := SwapFlag(s); t.(drainer := if won then Rewaking(Flipped) else Asleep)
    case Rewaking(Flipped) => StoreStamp(s).(drainer := Rewaking(Stamped))
    case Rewaking(_) => s.(drainer := Asleep, bytes := s.bytes + 1)
  }

  function Apply(s: State, a: Label): State
    requires Ready(s, a)
  {
    match a
    case Measure(i, item) => Put(s, i, Measured(|s.requests|, item))
    case Decide(i) =>
      var p := s.producers[i];
      Put(s, i, if p.len + s.inflight < s.limit then Admitted(p.item) else Resting)
    case PushRequest(i) => Put(s.(requests := s.requests + [s.producers[i].item]), i, Pushed)
    case PushOther(i, to, item) => Put(SetQueue(s, to, Queue(s, to) + [item]), i, Pushed)
    case Swap(i) =>
      var (t, won) := SwapFlag(s); Put(t, i, if won then Flipped else Resting)
    case StampIt(i) => Put(StoreStamp(s), i, Stamped)
    case Write(i) => Put(s.(bytes := s.bytes + 1), i, Resting)
    case Drain => DrainStep(s)
    case Discard => s.(drainer := Popping(Requests))
    case Release => s.(inflight := s.inflight - 1)
    case Tick => s.(now := s.now + 1)
  }

  /** The state after running `run`, if every label was ready in its turn. */
  function Exec(s: State, run: seq<Label>): Option<State>
    decreases |run|
  {
    if run == [] then Some(s)
    else if Ready(s, run[0]) then Exec(Apply(s, run[0]), run[1..])
    else None
  }

  ghost predicate Reachable(s: State, producers: nat, limit: nat) {
    exists run :: Exec(Initial(producers, limit), run) == Some(s)
  }

  lemma {:induction false} ExecConcat(s: State, run: seq<Label>, more: seq<Label>)
    requires Exec(s, run).Some?
    ensures Exec(s, run + more) == Exec(Exec(s, run).value, more)
    decreases |run|
  {
    if run == [] {
      assert run + more == more;
    } else {
      assert (run + more)[1..] == run[1..] + more;
      ExecConcat(Apply(s, run[0]), run[1..], more);
    }
  }

  /** One more step from a reachable state is reachable. */
  lemma ReachableStep(s: State, a: Label, producers: nat, limit: nat)
    requires Reachable(s, producers, limit) && Ready(s, a)
    ensures Reachable(Apply(s, a), producers, limit)
  {
    var run :| Exec(Initial(producers, limit), run) == Some(s);
    ExecConcat(Initial(producers, limit), run, [a]);
    assert Exec(s, [a]) == Some(Apply(s, a));
  }
}

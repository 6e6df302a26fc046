/**
 The callbacks of a WebSocket (src/websocket.rs) as a transition system, one atomic operation or one
 critical section per step: the tokio task that drives the socket, and the worker loop inside `notify`,
 `on_close` and `try_receive`. Both may be inside `mark_closed` at once.
 */
module Sockets {
  import opened Util

  /** Within `mark_closed`. */
  datatype Mark =
    | Store                          // stores `closed`
    | Wake                           // takes the waiter
    | Hand(waiter: nat)              // schedules it
    | Sweep                          // takes the close waiters
    | Tell(list: seq<nat>)           // schedules them one by one
    | Over

  datatype Tokio =
    | Unbound                        // `enqueue` has pushed the socket, not yet bound its queue
    | Driving
    | Landed                         // deliver: the frame is queued, the waiter not taken
    | Giving(waiter: nat)            // deliver: schedules the waiter
    | Closing(mark: Mark)

  datatype Loop =
    | Idle
    | Installed                      // notify: the waiter is in its slot; looks at the frames
    | Checked                        // notify: no frame; looks at `closed`
    | Ready                          // notify: takes a waiter back
    | Firing(waiter: nat)            // notify: schedules it
    | Asking(closer: nat)            // on_close: looks at `closed`
    | Adding(closer: nat)            // on_close: not closed; adds to the close waiters
    | Rechecking                     // on_close: looks at `closed` again
    | Again(mark: Mark)              // on_close: runs `mark_closed` itself

  datatype Shared = Shared(incoming: seq<nat>, waiter: Option<nat>, closers: seq<nat>, closed: bool, bound: bool)

  /**
   History: frames delivered and received; waiters and close callbacks made, in order; those scheduled on
   the loop; waiters another one replaced; callbacks dropped for want of a queue.
   */
  datatype Past = Past(
    sent: seq<nat>, got: seq<nat>, made: nat, woken: seq<nat>, replaced: seq<nat>,
    asked: nat, told: seq<nat>, dropped: nat)

  datatype State = State(shared: Shared, tokio: Tokio, worker: Loop, past: Past)

  datatype Label = Bind | Frame(content: nat) | Shut | TokioStep | Notify | Receive | OnClose | LoopStep

  function Initial(): State {
    State(Shared([], None, [], false, false), Unbound, Idle, Past([], [], 0, [], [], 0, [], 0))
  }

  predicate Enabled(s: State, a: Label) {
    match a
    case Bind => s.tokio.Unbound?
    case Frame(_) => s.tokio.Driving?
    case Shut => s.tokio.Driving?
    case TokioStep => s.tokio.Landed? || s.tokio.Giving? || (s.tokio.Closing? && !s.tokio.mark.Over?)
    case Notify => s.worker.Idle?
    case Receive => s.worker.Idle?
    case OnClose => s.worker.Idle?
    case LoopStep => !s.worker.Idle?
  }

  /** `schedule` of a waiter: the queue if it is known, else nothing. */
  function Woken(s: State, waiter: nat): Past {
    if s.shared.bound then s.past.(woken := s.past.woken + [waiter]) else s.past.(dropped := s.past.dropped + 1)
  }

  function Told(s: State, closer: nat): Past {
    if s.shared.bound then s.past.(told := s.past.told + [closer]) else s.past.(dropped := s.past.dropped + 1)
  }

  datatype Marked = Marked(shared: Shared, past: Past, mark: Mark)

  function MarkStep(s: State, m: Mark): Marked
    requires !m.Over?
  {
    match m
    case Store => Marked(s.shared.(closed := true), s.past, Wake)
    case Wake =>
      Marked(s.shared.(waiter := None), s.past, if s.shared.waiter.Some? then Hand(s.shared.waiter.value) else Sweep)
    case Hand(waiter) => Marked(s.shared, Woken(s, waiter), Sweep)
    case Sweep => Marked(s.shared.(closers := []), s.past, Tell(s.shared.closers))
    case Tell(list) =>
      if list == [] then Marked(s.shared, s.past, Over) else Marked(s.shared, Told(s, list[0]), Tell(list[1..]))
  }

  function Apply(s: State, a: Label): State
    requires Enabled(s, a)
  {
    match a
    case Bind => s.(shared := s.shared.(bound := true), tokio := Driving)
    case Frame(content) =>
      s.(shared := s.shared.(incoming := s.shared.incoming + [content]), tokio := Landed,
         past := s.past.(sent := s.past.sent + [content]))
    case Shut => s.(tokio := Closing(Store))
    case TokioStep => TokioNext(s)
    case Notify =>
      s.(shared := s.shared.(waiter := Some(s.past.made)), worker := Installed,
         past := s.past.(made := s.past.made + 1,
                         replaced := s.past.replaced + if s.shared.waiter.Some? then [s.shared.waiter.value] else []))
    case Receive =>
      if s.shared.incoming == [] then s
      else s.(shared := s.shared.(incoming := s.shared.incoming[1..]),
              past := s.past.(got := s.past.got + [s.shared.incoming[0]]))
    case OnClose => s.(worker := Asking(s.past.asked), past := s.past.(asked := s.past.asked + 1))
    case LoopStep => LoopNext(s)
  }

  function TokioNext(s: State): State
    requires Enabled(s, TokioStep)
  {
    match s.tokio
    case Landed =>
      s.(shared := s.shared.(waiter := None),
         tokio := if s.shared.waiter.Some? then Giving(s.shared.waiter.value) else Driving)
    case Giving(waiter) => s.(tokio := Driving, past := Woken(s, waiter))
    case Closing(m) =>
      var n := MarkStep(s, m);
      s.(shared := n.shared, past := n.past, tokio := Closing(n.mark))
  }

  function LoopNext(s: State): State
    requires Enabled(s, LoopStep)
  {
    match s.worker
    case Installed => s.(worker := if s.shared.incoming != [] then Ready else Checked)
    case Checked => s.(worker := if s.shared.closed then Ready else Idle)
    case Ready =>
      s.(shared := s.shared.(waiter := None),
         worker := if s.shared.waiter.Some? then Firing(s.shared.waiter.value) else Idle)
    case Firing(waiter) => s.(worker := Idle, past := s.past.(woken := s.past.woken + [waiter]))
    case Asking(closer) =>
      if s.shared.closed then s.(worker := Idle, past := s.past.(told := s.past.told + [closer]))
      else s.(worker := Adding(closer))
    case Adding(closer) => s.(worker := Rechecking, shared := s.shared.(closers := s.shared.closers + [closer]))
    case Rechecking => s.(worker := if s.shared.closed then Again(Store) else Idle)
    case Again(m) =>
      if m.Over? then s.(worker := Idle)
      else
        var n := MarkStep(s, m);
        s.(shared := n.shared, past := n.past, worker := Again(n.mark))
  }

  ghost function Exec(s: State, run: seq<Label>): Option<State>
    decreases |run|
  {
    if run == [] then Some(s)
    else if !Enabled(s, run[0]) then None
    else Exec(Apply(s, run[0]), run[1..])
  }

  ghost predicate Reachable(s: State) {
    exists run :: Exec(Initial(), run) == Some(s)
  }
}

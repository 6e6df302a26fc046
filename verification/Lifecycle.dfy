/**
 The life of requests across any number of connections and workers, as a transition system with one
 atomic operation per step: the handler count of an HTTP/2 connection (`Reservation` and `handle` in
 `src/server.rs`), the drain callback's treatment of one request (`src/worker.rs`), the cancellation
 cell (`src/cancel.rs`) and the release of the concurrency slot (`src/responder.rs`).

 Any thread may take the next step of any request, which allows every interleaving the process does.
 A handler's own steps start once its task is attached: `create_task` does not run it before.
 */
module Lifecycle {
  import opened Util

  const MAX_STREAMS: nat := 200

  datatype Cell = RUNNING | ABANDONED | ANSWERED

  /** The notice an abandoned request leaves for its worker. */
  datatype Notice = Unsent | Due | Queued | InHand | Spent

  datatype Reply = NotYet | Answering | Sent

  /** What the call that won `released` does next. */
  datatype Returning = Slot | Connection | Answered | Forgotten

  datatype Stage =
    | Arriving
    | Refusing                 // found the connection full, gives its increment back next
    | Reserved
    | HandedOver               // the count moved into the pending request, a worker is looked for
    | Shedding                 // no worker took it, gives the count back next
    | Waiting(w: nat)          // in the queue of worker w
    | Popped(w: nat)
    | Skipping(w: nat)         // found abandoned before it started, gives the count back next
    | Chosen(w: nat)           // not abandoned, claimed next
    | Claimed(w: nat)
    | Created(w: nat)          // its task exists, stored in the cell next
    | Attached(w: nat)         // stored, the flag is looked at once more next
    | Recalled(w: nat)         // that look found it abandoned, cancels next
    | Live(w: nat)
    | Releasing(w: nat, next: Returning)
    | Released(w: nat)
    | Gone

  datatype Request = Request(
    conn: Option<nat>, cancellable: bool,
    stage: Stage, cell: Cell, task: bool, notice: Notice,
    armed: bool, reply: Reply, released: bool,
    // History: times its task was cancelled.
    cancels: nat)

  datatype Action =
    | Take | GiveUp | DropReservation | HandOver | Enqueue(to: nat) | FindNone | Shed
    | Pop | Look | Skip | Claim | Create | Attach | Recheck | CancelAtOnce
    | Answer | Send | SwapReleased | Return
    | Disarm | Abandon | PushNotice | PopNotice | ActOnNotice

  /** A request's next form and what it adds to its connection's count and to its worker's. */
  datatype Effect = Effect(request: Request, connection: int, slot: int)

  datatype State = State(requests: seq<Request>, running: seq<int>, inflight: seq<int>)

  function Fresh(conn: Option<nat>, cancellable: bool): Request {
    Request(conn, cancellable, Arriving, RUNNING, false, Unsent, false, NotYet, false, 0)
  }

  function WorkerOf(g: Stage): Option<nat> {
    match g
    case Waiting(w) => Some(w)
    case Popped(w) => Some(w)
    case Skipping(w) => Some(w)
    case Chosen(w) => Some(w)
    case Claimed(w) => Some(w)
    case Created(w) => Some(w)
    case Attached(w) => Some(w)
    case Recalled(w) => Some(w)
    case Live(w) => Some(w)
    case Releasing(w, _) => Some(w)
    case Released(w) => Some(w)
    case _ => None
  }

  predicate Ready(q: Request, a: Action, workers: nat) {
    match a
    case Take => q.stage.Arriving?
    case GiveUp => q.stage.Refusing?
    case DropReservation => q.stage.Reserved?
    case HandOver => q.stage.Reserved?
    case Enqueue(to) => q.stage.HandedOver? && to < workers
    case FindNone => q.stage.HandedOver?
    case Shed => q.stage.Shedding?
    case Pop => q.stage.Waiting?
    case Look => q.stage.Popped?
    case Skip => q.stage.Skipping?
    case Claim => q.stage.Chosen?
    case Create => q.stage.Claimed?
    case Attach => q.stage.Created?
    case Recheck => q.stage.Attached?
    case CancelAtOnce => q.stage.Recalled?
    case Answer => q.stage.Live? && q.reply.NotYet?
    case Send => q.reply.Answering?
    // Any call of `release_once`: a reply, `finish`, kept work done, the drop. However many there are.
    case SwapReleased => q.stage.Live? || q.stage.Releasing? || q.stage.Released?
    case Return => q.stage.Releasing?
    case Disarm => q.armed && q.reply.Sent?
    case Abandon => q.armed
    case PushNotice => q.notice.Due?
    case PopNotice => q.notice.Queued?
    case ActOnNotice => q.notice.InHand?
  }

  function OnConnection(q: Request, d: int): int {
    if q.conn.Some? then d else 0
  }

  /** Store from a request that is still RUNNING, as a compare-and-exchange. */
  function Exchange(c: Cell, to: Cell): Cell {
    if c.RUNNING? then to else c
  }

  /** `Cancel::cancel`: takes the task out of the slot and cancels it, if there is one. */
  function CancelTask(q: Request): Request {
    if q.task then q.(task := false, cancels := q.cancels + 1) else q
  }

  /** `busy` is the connection's count before this step's own increment. */
  function Next(q: Request, a: Action, busy: int, workers: nat): Effect
    requires Ready(q, a, workers)
  {
    match a
    case Take =>
      if q.conn.None? then Effect(q.(stage := Reserved), 0, 0)
      else Effect(q.(stage := if busy >= MAX_STREAMS then Refusing else Reserved), 1, 0)
    case GiveUp => Effect(q.(stage := Gone), OnConnection(q, -1), 0)
    case DropReservation => Effect(q.(stage := Gone), OnConnection(q, -1), 0)
    case HandOver => Effect(q.(stage := HandedOver), 0, 0)
    case Enqueue(to) => Effect(q.(stage := Waiting(to), armed := q.cancellable), 0, 0)
    case FindNone => Effect(q.(stage := Shedding), 0, 0)
    case Shed => Effect(q.(stage := Gone), OnConnection(q, -1), 0)
    case Pop => Effect(q.(stage := Popped(q.stage.w)), 0, 0)
    case Look =>
      Effect(q.(stage := if q.cancellable && q.cell.ABANDONED? then Skipping(q.stage.w) else Chosen(q.stage.w)), 0, 0)
    case Skip => Effect(q.(stage := Gone), OnConnection(q, -1), 0)
    case Claim => Effect(q.(stage := Claimed(q.stage.w)), 0, 1)
    case Create => Effect(q.(stage := if q.cancellable then Created(q.stage.w) else Live(q.stage.w)), 0, 0)
    case Attach => Effect(q.(stage := Attached(q.stage.w), task := true), 0, 0)
    case Recheck => Effect(q.(stage := if q.cell.ABANDONED? then Recalled(q.stage.w) else Live(q.stage.w)), 0, 0)
    case CancelAtOnce => Effect(CancelTask(q).(stage := Live(q.stage.w)), 0, 0)
    case Answer =>
      Effect(q.(reply := Answering, cell := if q.cancellable then Exchange(q.cell, ANSWERED) else q.cell), 0, 0)
    case Send => Effect(q.(reply := Sent), 0, 0)
    case SwapReleased =>
      Effect(if q.released then q else q.(released := true, stage := Releasing(q.stage.w, Slot)), 0, 0)
    case Return => ReturnStep(q)
    case Disarm => Effect(q.(armed := false), 0, 0)
    case Abandon =>
      Effect(q.(armed := false, cell := Exchange(q.cell, ABANDONED),
                notice := if q.cell.RUNNING? then Due else q.notice), 0, 0)
    case PushNotice => Effect(q.(notice := Queued), 0, 0)
    case PopNotice => Effect(q.(notice := InHand), 0, 0)
    case ActOnNotice => Effect(CancelTask(q).(notice := Spent), 0, 0)
  }

  /** `release_once` after its swap: the slot, the connection's count, then the cell. */
  function ReturnStep(q: Request): Effect
    requires q.stage.Releasing?
  {
    var w := q.stage.w;
    match q.stage.next
    case Slot => Effect(q.(stage := Releasing(w, Connection)), 0, -1)
    case Connection =>
      Effect(q.(stage := if q.cancellable then Releasing(w, Answered) else Released(w)), OnConnection(q, -1), 0)
    case Answered => Effect(q.(stage := Releasing(w, Forgotten), cell := Exchange(q.cell, ANSWERED)), 0, 0)
    case Forgotten => Effect(q.(stage := Released(w), task := false), 0, 0)
  }

  predicate WellFormed(s: State) {
    forall r :: 0 <= r < |s.requests| ==> Placed(s.requests[r], |s.running|, |s.inflight|)
  }

  predicate Placed(q: Request, connections: nat, workers: nat) {
    && (q.conn.Some? ==> q.conn.value < connections)
    && (WorkerOf(q.stage).Some? ==> WorkerOf(q.stage).value < workers)
  }

  function Busy(s: State, q: Request): int {
    if q.conn.Some? && q.conn.value < |s.running| then s.running[q.conn.value] else 0
  }

  predicate Can(s: State, r: nat, a: Action) {
    r < |s.requests| && Ready(s.requests[r], a, |s.inflight|)
  }

  function Apply(s: State, r: nat, a: Action): State
    requires WellFormed(s) && Can(s, r, a)
  {
    var q := s.requests[r];
    var e := Next(q, a, Busy(s, q), |s.inflight|);
    State(s.requests[r := e.request],
          if q.conn.Some? then s.running[q.conn.value := s.running[q.conn.value] + e.connection] else s.running,
          var w := WorkerOf(q.stage);
          if w.Some? then s.inflight[w.value := s.inflight[w.value] + e.slot] else s.inflight)
  }

  /** Any requests, none of them begun; the counts are zero. */
  predicate Initial(s: State) {
    && WellFormed(s)
    && (forall r :: 0 <= r < |s.requests| ==> s.requests[r] == Fresh(s.requests[r].conn, s.requests[r].cancellable))
    && (forall c :: 0 <= c < |s.running| ==> s.running[c] == 0)
    && (forall w :: 0 <= w < |s.inflight| ==> s.inflight[w] == 0)
  }

  /** Who has `released` set is being released or has been: so each later call finds it set and does nothing. */
  predicate Flagged(q: Request) {
    q.released <==> q.stage.Releasing? || q.stage.Released?
  }

  ghost predicate AllFlagged(s: State) {
    forall r :: 0 <= r < |s.requests| ==> Flagged(s.requests[r])
  }

  lemma FlagKept(q: Request, a: Action, busy: int, workers: nat)
    requires Flagged(q) && Ready(q, a, workers)
    ensures Flagged(Next(q, a, busy, workers).request)
  {}

  lemma StepKeepsFlags(s: State, r: nat, a: Action)
    requires WellFormed(s) && AllFlagged(s) && Can(s, r, a)
    ensures AllFlagged(Apply(s, r, a))
  {
    FlagKept(s.requests[r], a, Busy(s, s.requests[r]), |s.inflight|);
  }

  lemma NextKeepsPlace(q: Request, a: Action, busy: int, connections: nat, workers: nat)
    requires Ready(q, a, workers) && Placed(q, connections, workers)
    ensures Placed(Next(q, a, busy, workers).request, connections, workers)
    ensures var p := Next(q, a, busy, workers).request; p.conn == q.conn && p.cancellable == q.cancellable
  {}

  lemma StepKeepsPlace(s: State, r: nat, a: Action)
    requires WellFormed(s) && Can(s, r, a)
    ensures WellFormed(Apply(s, r, a))
    ensures |Apply(s, r, a).running| == |s.running| && |Apply(s, r, a).inflight| == |s.inflight|
  {
    var q := s.requests[r];
    NextKeepsPlace(q, a, Busy(s, q), |s.running|, |s.inflight|);
  }

  /** Whoever steps, in whatever order. */
  function Exec(s: State, run: seq<(nat, Action)>): Option<State>
    requires WellFormed(s)
    decreases |run|
  {
    if run == [] then Some(s)
    else if Can(s, run[0].0, run[0].1) then
      StepKeepsPlace(s, run[0].0, run[0].1);
      Exec(Apply(s, run[0].0, run[0].1), run[1..])
    else None
  }

  ghost predicate Reachable(s: State) {
    exists s0, run :: Initial(s0) && Exec(s0, run) == Some(s)
  }
}

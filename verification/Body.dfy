/**
 The streaming-body bridge of `src/body.rs` as a transition system, one atomic operation or one
 critical section per step: the pump, which lives in the connection's future on a tokio thread, and
 the readers on the worker loop, which run one at a time. The readers follow the loops of
 `BodyStream.__anext__` and `read_body` in `python/oxbrook/_bodies.py`.
 */
module Body {
  import opened Util

  const HIGH_WATER: nat := 1024 * 1024

  datatype Failure = TooLarge | Idle | Incomplete

  datatype Chunk = Data(bytes: seq<nat>) | End | Failed(why: Failure)

  /** What the client sends; a body that is not broken off ends after its last frame. */
  datatype Frame = Payload(bytes: seq<nat>) | Trailers | Broken

  /** Where the pump is. It can be dropped where it awaits: `First`, `Parked`, `Reading`, `Lingering`. */
  datatype Pump =
    | Unpolled
    | First(woken: bool)             // awaits demand before the first read
    | Began                          // looks at `discard`
    | Sizing                         // looks at the declared length
    | Top                            // loads `buffered`
    | Over                           // above the high water: loads `whole`
    | OverPartial                    // not whole: loads `discard`
    | Parking                        // about to await demand
    | Parked(woken: bool)
    | Looking                        // loads `discard` before reading
    | Reading                        // awaits the next frame
    | Lingering(after: Option<Failure>)
    | Noting(chunk: Chunk)           // push: counts the bytes, or stores `finished`
    | Queueing(chunk: Chunk)         // push: appends
    | Choosing(last: bool)           // push: loads `whole`
    | Asking(last: bool)             // whole: loads `finished`
    | Taking(last: bool)             // takes the waiters
    | Handing(list: seq<nat>, last: bool)
    | Ending                         // dropped: loads `finished`
    | Gone

  /** Where the worker loop is within a reader's call. */
  datatype Reader =
    | Resting
    | NextEmpty                      // poll found nothing: loads `finished`
    | NextDemand                     // asks for more
    | NextWait                       // notify: installs a waiter
    | NextCheck                      // notify: looks at the chunks once more
    | NextGot(bytes: seq<nat>)       // poll popped data: takes it off `buffered`
    | NextCrossed                    // fell to the high water: asks for more
    | NextMark(mark: Chunk)          // poll popped the marker: puts it back
    | AllTake                        // take saw `finished`: empties the chunks
    | AllWhole                       // collect: stores `whole`
    | AllWait                        // collect: installs a waiter
    | AllDemand                      // collect: asks for more
    | AllCheck                       // collect: loads `finished` once more
    | Waking                         // takes the waiters
    | Passing(list: seq<nat>)

  /** `BodyShared`. */
  datatype Shared = Shared(
    chunks: seq<Chunk>, buffered: int, permit: bool,
    finished: bool, whole: bool, discard: bool, bound: bool, waiters: seq<nat>)

  datatype Client = Client(frames: seq<Frame>, declared: Option<nat>, maxBody: nat)

  /**
   History: frames read, bytes accepted from them, popped from the chunks, handed to readers;
   callbacks made, scheduled on the loop, dropped; whether the pump was ever polled.
   */
  datatype Past = Past(
    used: nat, accepted: seq<nat>, popped: seq<nat>, handed: seq<nat>,
    made: seq<nat>, scheduled: seq<nat>, lost: seq<nat>, polled: bool)

  datatype State = State(client: Client, shared: Shared, pump: Pump, reader: Reader, past: Past)

  datatype Label =
    | Bind                           // `enqueue` tells the body its worker
    | Poll                           // the pump's first poll
    | PumpStep | NextFrame | IdleOut | Lingered
    | DropPump | Discard
    | StartNext | StartAll           // a reader asks for a chunk, or for the whole body
    | ReaderStep

  function Initial(client: Client): State {
    State(client, Shared([], 0, false, false, false, false, false, []), Unpolled, Resting,
          Past(0, [], [], [], [], [], [], false))
  }

  predicate IsMark(c: Chunk) { !c.Data? }

  /** The pump stays where it is until something outside it happens. */
  predicate Suspended(p: Pump) {
    p == First(false) || p == Parked(false) || p.Reading? || p.Lingering? || p.Unpolled? || p.Gone?
  }

  predicate Ready(s: State, a: Label) {
    match a
    case Bind => s.pump.Unpolled? && !s.shared.bound
    case Poll => s.pump.Unpolled? && s.shared.bound
    case PumpStep => !Suspended(s.pump)
    case NextFrame => s.pump.Reading?
    case IdleOut => s.pump.Reading?
    case Lingered => s.pump.Lingering?
    case DropPump => s.pump.Unpolled? || s.pump.First? || s.pump.Parked? || s.pump.Reading? || s.pump.Lingering?
    case Discard => s.pump.Unpolled? || s.pump.First? || s.pump.Parked? || s.pump.Reading? || s.pump.Lingering?
    case StartNext => s.reader.Resting?
    case StartAll => s.reader.Resting?
    case ReaderStep => !s.reader.Resting?
  }

  /** `Notify::notify_one`: wakes the pump if it waits, else leaves one permit. */
  function Demand(s: State): State {
    if s.pump == First(false) then s.(pump := First(true))
    else if s.pump == Parked(false) then s.(pump := Parked(true))
    else s.(shared := s.shared.(permit := true))
  }

  /** `wake`'s critical section; without a bound queue the callbacks go nowhere. */
  function TakeWaiters(s: State): State {
    s.(shared := s.shared.(waiters := []),
       past := if s.shared.bound then s.past else s.past.(lost := s.past.lost + s.shared.waiters))
  }

  function Taken(s: State): seq<nat> {
    if s.shared.bound then s.shared.waiters else []
  }

  function Schedule(s: State, callback: nat): State {
    s.(past := s.past.(scheduled := s.past.scheduled + [callback]))
  }

  /** Places from which the pump only moves on, by what it loads. */
  predicate Steering(p: Pump) {
    !Suspended(p) && !p.Parking? && !p.Noting? && !p.Queueing? && !p.Taking? && !p.Handing?
  }

  function Steer(p: Pump, h: Shared, c: Client): Pump
    requires Steering(p)
  {
    match p
    case First(_) => Began
    case Began => if h.discard then Lingering(None) else Sizing
    case Sizing => if c.declared.Some? && c.declared.value > c.maxBody then Lingering(Some(TooLarge)) else Top
    case Top => if h.buffered > HIGH_WATER then Over else Looking
    case Over => if h.whole then Looking else OverPartial
    case OverPartial => if h.discard then Looking else Parking
    case Parked(_) => Top
    case Looking => if h.discard then Lingering(None) else Reading
    case Choosing(last) => if h.whole then Asking(last) else Taking(last)
    case Asking(last) => if h.finished then Taking(last) else AfterPush(last)
    case Ending => if h.finished then Gone else Noting(Failed(Incomplete))
  }

  function AfterPush(last: bool): Pump {
    if last then Ending else Top
  }

  /** `push`: counts a chunk's bytes, or stores `finished`. */
  function Note(h: Shared, c: Chunk): Shared {
    if c.Data? then h.(buffered := h.buffered + |c.bytes|) else h.(finished := true)
  }

  function StepPump(s: State): State
    requires Ready(s, PumpStep)
  {
    if Steering(s.pump) then s.(pump := Steer(s.pump, s.shared, s.client))
    else
      match s.pump
      case Parking => s.(pump := Parked(s.shared.permit), shared := s.shared.(permit := false))
      case Noting(c) => s.(pump := Queueing(c), shared := Note(s.shared, c))
      case Queueing(c) => s.(pump := Choosing(IsMark(c)), shared := s.shared.(chunks := s.shared.chunks + [c]))
      case Taking(last) => TakeWaiters(s).(pump := Handing(Taken(s), last))
      case Handing(list, last) =>
        if list == [] then s.(pump := AfterPush(last)) else Schedule(s, list[0]).(pump := Handing(list[1..], last))
  }

  /** What the next frame makes of the pump and of its account. */
  function Receive(p: Past, c: Client): (Pump, Past) {
    if p.used >= |c.frames| then (Noting(End), p)
    else
      var q := p.(used := p.used + 1);
      match c.frames[p.used]
      case Broken => (Noting(Failed(Incomplete)), q)
      case Trailers => (Top, q)
      case Payload(bytes) =>
        if |p.accepted| + |bytes| > c.maxBody then (Lingering(Some(TooLarge)), q)
        else (if bytes == [] then Top else Noting(Data(bytes)), q.(accepted := p.accepted + bytes))
  }

  /** What `take` collects: the data before the marker, and the marker, which stays. */
  function Whole(chunks: seq<Chunk>): seq<nat> {
    if chunks == [] || IsMark(chunks[0]) then [] else chunks[0].bytes + Whole(chunks[1..])
  }

  function Left(chunks: seq<Chunk>): seq<Chunk> {
    if chunks == [] || IsMark(chunks[0]) then chunks else Left(chunks[1..])
  }

  function TakeAll(s: State): State {
    var bytes, left := Whole(s.shared.chunks), Left(s.shared.chunks);
    s.(shared := s.shared.(chunks := left, buffered := s.shared.buffered - |bytes|),
       past := s.past.(popped := s.past.popped + bytes,
                       handed := if left != [] && left[0].Failed? then s.past.handed else s.past.handed + bytes))
  }

  /** Where a reader goes from a place at which it only loads something. */
  predicate Glancing(r: Reader) { r.NextEmpty? || r.NextCheck? || r.AllCheck? }

  function Glance(r: Reader, h: Shared): Reader
    requires Glancing(r)
  {
    match r
    case NextEmpty => if h.finished then NextWait else NextDemand
    case NextCheck => if h.chunks != [] then Waking else Resting
    case AllCheck => if h.finished then Waking else Resting
  }

  function StepReader(s: State): State
    requires Ready(s, ReaderStep)
  {
    if Glancing(s.reader) then s.(reader := Glance(s.reader, s.shared))
    else
      match s.reader
      case NextDemand => Demand(s).(reader := NextWait)
      case NextWait => Waits(s).(reader := NextCheck)
      case NextGot(bytes) =>
        s.(shared := s.shared.(buffered := s.shared.buffered - |bytes|),
           reader := if s.shared.buffered > HIGH_WATER && s.shared.buffered - |bytes| <= HIGH_WATER
                     then NextCrossed else Resting)
      case NextCrossed => Demand(s).(reader := Resting)
      case NextMark(mark) => s.(shared := s.shared.(chunks := [mark] + s.shared.chunks), reader := Resting)
      case AllTake => TakeAll(s).(reader := Resting)
      case AllWhole => s.(shared := s.shared.(whole := true), reader := AllWait)
      case AllWait => Waits(s).(reader := AllDemand)
      case AllDemand => Demand(s).(reader := AllCheck)
      case Waking => TakeWaiters(s).(reader := Passing(Taken(s)))
      case Passing(list) =>
        if list == [] then s.(reader := Resting) else Schedule(s, list[0]).(reader := Passing(list[1..]))
  }

  /** A fresh callback joins the waiters. */
  function Waits(s: State): State {
    s.(shared := s.shared.(waiters := s.shared.waiters + [|s.past.made|]),
       past := s.past.(made := s.past.made + [|s.past.made|]))
  }

  /** `poll`'s first critical section. */
  function PopFront(s: State): State {
    if s.shared.chunks == [] then s.(reader := NextEmpty)
    else
      var c := s.shared.chunks[0];
      var t := s.(shared := s.shared.(chunks := s.shared.chunks[1..]),
                  reader := if c.Data? then NextGot(c.bytes) else NextMark(c));
      if c.Data? then t.(past := s.past.(popped := s.past.popped + c.bytes, handed := s.past.handed + c.bytes)) else t
  }

  function Apply(s: State, a: Label): State
    requires Ready(s, a)
  {
    match a
    case Bind => s.(shared := s.shared.(bound := true))
    case Poll => s.(pump := First(s.shared.permit), shared := s.shared.(permit := false),
                    past := s.past.(polled := true))
    case PumpStep => StepPump(s)
    case NextFrame => var r := Receive(s.past, s.client); s.(pump := r.0, past := r.1)
    case IdleOut => s.(pump := Noting(Failed(Idle)))
    case Lingered => s.(pump := if s.pump.after.Some? then Noting(Failed(s.pump.after.value)) else Ending)
    case DropPump => s.(pump := if s.pump.Unpolled? then Gone else Ending)
    case Discard => Demand(s.(shared := s.shared.(discard := true)))
    case StartNext => PopFront(s)
    case StartAll => s.(reader := if s.shared.finished then AllTake else AllWhole)
    case ReaderStep => StepReader(s)
  }

  datatype Answer = Chunked(bytes: seq<nat>) | Ended(bytes: seq<nat>) | Failing(why: Failure)

  /** What the reader's call returns as the reader takes its next step, if that step settles it. */
  function Answers(s: State): Option<Answer> {
    match s.reader
    case NextGot(bytes) => Some(Chunked(bytes))
    case NextMark(End) => Some(Ended([]))
    case NextMark(Failed(why)) => Some(Failing(why))
    case AllTake =>
      var left := Left(s.shared.chunks);
      if left != [] && left[0].Failed? then Some(Failing(left[0].why)) else Some(Ended(Whole(s.shared.chunks)))
    case _ => None
  }

  function Exec(s: State, run: seq<Label>): Option<State>
    decreases |run|
  {
    if run == [] then Some(s)
    else if Ready(s, run[0]) then Exec(Apply(s, run[0]), run[1..])
    else None
  }

  ghost predicate Reachable(s: State) {
    exists client, run :: Exec(Initial(client), run) == Some(s)
  }

  lemma {:induction false} ExecConcat(s: State, run: seq<Label>, more: seq<Label>)
    requires Exec(s, run).Some?
    ensures Exec(s, run + more) == Exec(Exec(s, run).value, more)
    decreases |run|
  {
    if run == [] {
      assert run + more == more;
    } else {
      assert (run + more)[1..] == run[1..] + more;
      ExecConcat(Apply(s, run[0]), run[1..], more);
    }
  }

  lemma ReachableStep(s: State, a: Label)
    requires Reachable(s) && Ready(s, a)
    ensures Reachable(Apply(s, a))
  {
    var client, run :| Exec(Initial(client), run) == Some(s);
    ExecConcat(Initial(client), run, [a]);
    assert Exec(Apply(s, a), []) == Some(Apply(s, a));
    assert Exec(Initial(client), run + [a]) == Some(Apply(s, a));
  }
}

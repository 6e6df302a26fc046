/**
 How soon a parked reader is called back: a bound on the pump's steps, those the client takes included,
 before its callback is scheduled on the loop.
 */
module BodyProgress {
  import opened Util
  import opened Body
  import Bytes = BodyBytes
  import Callbacks = BodyCallbacks
  import Wake = BodyWake

  predicate OfReader(a: Label) {
    a.StartNext? || a.StartAll? || a.ReaderStep?
  }

  /** The pump moves: by itself, by what the client does or leaves undone, or as its future is dropped. */
  predicate Drives(a: Label) {
    a.Poll? || a.PumpStep? || a.NextFrame? || a.IdleOut? || a.Lingered? || a.DropPump?
  }

  predicate DropsUnpolled(s: State, a: Label) {
    a.DropPump? && s.pump.Unpolled?
  }

  /** A callback left by a reader that does nothing until it is called: it waits, or the pump is handing it over. */
  predicate Pending(s: State, callback: nat) {
    s.reader.Resting? && (callback in s.shared.waiters || callback in Callbacks.InPump(s.pump))
  }

  /** The pump was not dropped before its first poll. */
  predicate Alive(s: State) {
    s.pump.Gone? ==> s.past.polled
  }

  function Place(list: seq<nat>, callback: nat): nat {
    if list == [] || list[0] == callback then 0 else 1 + Place(list[1..], callback)
  }

  lemma {:induction false} PlaceInside(list: seq<nat>, callback: nat)
    requires callback in list
    ensures Place(list, callback) < |list|
  {
    if list[0] != callback {
      PlaceInside(list[1..], callback);
    }
  }

  function Frames(s: State): nat {
    if s.past.used <= |s.client.frames| then |s.client.frames| - s.past.used else 0
  }

  /** From the top of its loop, with `n` callbacks waiting and `frames` still to read. */
  function FromTop(n: nat, frames: nat): nat {
    n + 8 * frames + 11
  }

  /** The pump's steps until it takes the waiters. */
  function UntilTaken(s: State): nat {
    var n := |s.shared.waiters|;
    var top := FromTop(n, Frames(s));
    match s.pump
    case Unpolled => top + 4
    case First(_) => top + 3
    case Began => top + 2
    case Sizing => top + 1
    case Top => top
    case Over => if s.shared.whole then top - 1 else top + 4
    case OverPartial => top + 3
    case Parking => top + 2
    case Parked(_) => top + 1
    case Looking => top - 2
    case Reading => top - 3
    case Lingering(_) => n + 8
    case Noting(c) => if IsMark(c) then n + 6 else top + 4
    case Queueing(c) => if IsMark(c) then n + 5 else top + 3
    case Choosing(last) => if last then n + 4 else top + 2
    case Asking(last) => if last then n + 3 else top + 1
    case Taking(_) => n + 1
    case Handing(list, last) => |list| + 1 + if last then n + 7 else top
    case Ending => n + 7
    case Gone => 0
  }

  /** And until it has scheduled the callback. */
  function Steps(s: State, callback: nat): nat {
    var list := Callbacks.InPump(s.pump);
    if callback in list then Place(list, callback) + 1 else UntilTaken(s)
  }

  ghost predicate Inv(s: State) {
    Wake.Inv(s) && Callbacks.KnownInTime(s)
  }

  lemma {:induction false} RunKeeps(s: State, run: seq<Label>)
    requires Inv(s) && Exec(s, run).Some?
    ensures Inv(Exec(s, run).value)
    decreases |run|
  {
    if run != [] {
      Wake.StepKeeps(s, run[0]);
      Callbacks.StepKeepsKnown(s, run[0]);
      RunKeeps(Apply(s, run[0]), run[1..]);
    }
  }

  lemma ReachableHolds(s: State)
    requires Reachable(s)
    ensures Inv(s)
  {
    var client, run :| Exec(Initial(client), run) == Some(s);
    Wake.InitialHolds(client);
    RunKeeps(Initial(client), run);
  }

  lemma StepsArePositive(s: State, callback: nat)
    requires Inv(s) && Pending(s, callback) && Alive(s)
    ensures !s.pump.Gone? && Steps(s, callback) >= 1
  {
  }

  lemma StaysAlive(s: State, a: Label)
    requires Inv(s) && Alive(s) && Ready(s, a) && !DropsUnpolled(s, a)
    ensures Alive(Apply(s, a))
  {
    if a.ReaderStep? {
      assert s.pump.Gone? <==> Apply(s, a).pump.Gone?;
    }
  }

  /** Above the high water something is stored, so a reader still waiting wants the body whole. */
  lemma FullIsWhole(s: State)
    requires Inv(s) && s.reader.Resting? && s.shared.waiters != [] && s.pump.Top? && s.shared.buffered > HIGH_WATER
    ensures s.shared.whole
  {
    assert Bytes.Stored(s.shared.chunks) != [];
  }

  lemma SteeringNears(s: State, callback: nat)
    requires Inv(s) && Pending(s, callback) && Steering(s.pump)
    ensures var t := Apply(s, PumpStep); Pending(t, callback) && UntilTaken(t) + 1 <= UntilTaken(s)
  {
    if s.pump.Top? && s.shared.buffered > HIGH_WATER {
      FullIsWhole(s);
    }
  }

  lemma PushNears(s: State, callback: nat)
    requires Inv(s) && Pending(s, callback) && (s.pump.Parking? || s.pump.Noting? || s.pump.Queueing?)
    ensures var t := Apply(s, PumpStep); Pending(t, callback) && Steps(t, callback) + 1 <= Steps(s, callback)
  {
  }

  lemma TakingNears(s: State, callback: nat)
    requires Inv(s) && Pending(s, callback) && s.pump.Taking?
    ensures var t := Apply(s, PumpStep); Pending(t, callback) && Steps(t, callback) + 1 <= Steps(s, callback)
  {
    PlaceInside(s.shared.waiters, callback);
  }

  lemma HandingNears(s: State, callback: nat)
    requires Inv(s) && Pending(s, callback) && s.pump.Handing?
    ensures var t := Apply(s, PumpStep);
      callback in t.past.scheduled || (Pending(t, callback) && Steps(t, callback) + 1 <= Steps(s, callback))
  {
    var t := Apply(s, PumpStep);
    if s.pump.list != [] {
      assert s.pump.list == [s.pump.list[0]] + s.pump.list[1..];
      assert t.past.scheduled[|s.past.scheduled|] == s.pump.list[0];
    }
  }

  lemma OthersNear(s: State, a: Label, callback: nat)
    requires Inv(s) && Pending(s, callback) && Ready(s, a) && !OfReader(a) && !a.PumpStep? && !DropsUnpolled(s, a)
    ensures var t := Apply(s, a);
      Pending(t, callback) && Steps(t, callback) + (if Drives(a) then 1 else 0) <= Steps(s, callback)
  {
  }

  lemma StepNears(s: State, a: Label, callback: nat)
    requires Inv(s) && Pending(s, callback) && Ready(s, a) && !OfReader(a) && !DropsUnpolled(s, a)
    ensures var t := Apply(s, a);
      callback in t.past.scheduled
      || (Pending(t, callback) && Steps(t, callback) + (if Drives(a) then 1 else 0) <= Steps(s, callback))
  {
    if !a.PumpStep? { OthersNear(s, a, callback); }
    else if Steering(s.pump) { SteeringNears(s, callback); }
    else if s.pump.Taking? { TakingNears(s, callback); }
    else if s.pump.Handing? { HandingNears(s, callback); }
    else { PushNears(s, callback); }
  }

  /** No reader does anything meanwhile, and the pump is not dropped before its first poll. */
  ghost predicate Parked(s: State, run: seq<Label>)
    requires Exec(s, run).Some?
    decreases |run|
  {
    run == [] || (!OfReader(run[0]) && !DropsUnpolled(s, run[0]) && Parked(Apply(s, run[0]), run[1..]))
  }

  function Driven(run: seq<Label>): nat {
    if run == [] then 0 else (if Drives(run[0]) then 1 else 0) + Driven(run[1..])
  }

  lemma {:induction false} ScheduledStays(s: State, run: seq<Label>)
    requires Exec(s, run).Some?
    ensures s.past.scheduled <= Exec(s, run).value.past.scheduled
    decreases |run|
  {
    if run != [] {
      assert s.past.scheduled <= Apply(s, run[0]).past.scheduled;
      ScheduledStays(Apply(s, run[0]), run[1..]);
    }
  }

  lemma {:induction false} StepsFall(s: State, run: seq<Label>, callback: nat)
    requires Inv(s) && Pending(s, callback) && Alive(s) && Exec(s, run).Some? && Parked(s, run)
    ensures callback in Exec(s, run).value.past.scheduled || Driven(run) < Steps(s, callback)
    decreases |run|
  {
    if run == [] {
      StepsArePositive(s, callback);
    } else {
      var t := Apply(s, run[0]);
      StaysAlive(s, run[0]);
      StepNears(s, run[0], callback);
      if callback in t.past.scheduled {
        ScheduledStays(t, run[1..]);
      } else {
        Wake.StepKeeps(s, run[0]);
        Callbacks.StepKeepsKnown(s, run[0]);
        StepsFall(t, run[1..], callback);
      }
    }
  }

  /**
   A parked reader is called back: on every run in which readers stay parked, once the pump and its client
   have taken `Steps` steps the callback has been scheduled. That is eight for each frame still to come, one
   for each callback waiting or being handed over, and a few more.
   */
  lemma CalledBackWithin(s: State, run: seq<Label>, callback: nat)
    requires Reachable(s) && Pending(s, callback) && Alive(s) && Exec(s, run).Some? && Parked(s, run)
    ensures Driven(run) >= Steps(s, callback) ==> callback in Exec(s, run).value.past.scheduled
    ensures 1 <= Steps(s, callback) <= |s.shared.waiters| + |Callbacks.InPump(s.pump)| + 8 * Frames(s) + 16
  {
    ReachableHolds(s);
    StepsArePositive(s, callback);
    StepsFall(s, run, callback);
    if callback in Callbacks.InPump(s.pump) {
      PlaceInside(Callbacks.InPump(s.pump), callback);
    }
  }

  /** Until then there is such a step to take, unless it waits for the client or for the worker to be known. */
  lemma SomeoneDrives(s: State, callback: nat)
    requires Reachable(s) && Pending(s, callback) && Alive(s)
    ensures Ready(s, PumpStep) || s.pump.Reading? || s.pump.Lingering? || Ready(s, Poll) || Ready(s, Bind)
  {
    if callback in s.shared.waiters {
      Wake.ParkedReaderWaitsOnClient(s);
    }
  }
}

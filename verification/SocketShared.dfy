/**
 A WebSocket's shared state as the source writes it (src/websocket.rs). Each method says outright what it
 does when nobody races it, and is proved to be a run of one thread of the transition system of `Sockets`.
 */
module SocketStates {
  import opened Util
  import opened Sockets

  lemma {:induction false} ExecThen(s: State, run: seq<Label>, a: Label)
    requires Exec(s, run).Some? && Enabled(Exec(s, run).value, a)
    ensures Exec(s, run + [a]) == Some(Apply(Exec(s, run).value, a))
    decreases |run|
  {
    if run == [] {
      assert run + [a] == [a] && [a][1..] == [];
    } else {
      assert (run + [a])[1..] == run[1..] + [a];
      ExecThen(Apply(s, run[0]), run[1..], a);
    }
  }

  function All(o: Option<nat>): seq<nat> {
    if o.Some? then [o.value] else []
  }

  /** The label of a step by whoever runs `mark_closed`, and where that thread stands. */
  ghost function StepOf(byTokio: bool): Label {
    if byTokio then TokioStep else LoopStep
  }

  ghost predicate Stands(s: State, byTokio: bool, m: Mark) {
    if byTokio then s.tokio == Closing(m) else s.worker == Again(m)
  }

  lemma MarkOn(s: State, run: seq<Label>, t: State, byTokio: bool, m: Mark) returns (more: seq<Label>, u: State)
    requires Exec(s, run) == Some(t) && Stands(t, byTokio, m) && !m.Over?
    ensures Exec(s, more) == Some(u) && Stands(u, byTokio, MarkStep(t, m).mark)
    ensures u.shared == MarkStep(t, m).shared && u.past == MarkStep(t, m).past
    ensures if byTokio then u.worker == t.worker else u.tokio == t.tokio
  {
    more, u := run + [StepOf(byTokio)], Apply(t, StepOf(byTokio));
    ExecThen(s, run, StepOf(byTokio));
  }

  class SocketShared {
    var incoming: seq<nat>
    var waiter: Option<nat>
    var closers: seq<nat>
    var closed: bool
    /** Waiters and close callbacks scheduled on the loop, through the worker's queue or directly. */
    var woken: seq<nat>
    var told: seq<nat>

    constructor ()
      ensures incoming == [] && waiter == None && closers == [] && !closed && woken == [] && told == []
    {
      incoming, waiter, closers, closed, woken, told := [], None, [], false, [], [];
    }

    /** `s` is this socket, bound to its queue, with the two threads around it. */
    ghost predicate Shows(s: State)
      reads this
    {
      && s.shared == Shared(incoming, waiter, closers, closed, true)
      && s.past.woken == woken && s.past.told == told
    }

    /** `deliver`, by the tokio task. */
    method Deliver(frame: nat, ghost s: State) returns (ghost run: seq<Label>, ghost t: State)
      requires Shows(s) && s.tokio.Driving?
      modifies this
      ensures incoming == old(incoming) + [frame] && waiter == None && woken == old(woken) + All(old(waiter))
      ensures closers == old(closers) && closed == old(closed) && told == old(told)
      ensures Exec(s, run) == Some(t) && Shows(t) && t.tokio.Driving? && t.worker == s.worker
    {
      run, t := [Frame(frame)], Apply(s, Frame(frame));
      assert Exec(s, run) == Some(t) by {
        assert run[1..] == [];
      }
      incoming := incoming + [frame];
      var taken := waiter;
      waiter := None;
      ExecThen(s, run, TokioStep);
      run, t := run + [TokioStep], Apply(t, TokioStep);
      if taken.Some? {
        woken := woken + [taken.value];
        ExecThen(s, run, TokioStep);
        run, t := run + [TokioStep], Apply(t, TokioStep);
      }
    }

    /** `mark_closed`, by the tokio task at the end or by the loop within `on_close`. */
    method MarkClosed(ghost s: State, ghost byTokio: bool) returns (ghost run: seq<Label>, ghost t: State)
      requires Shows(s) && Stands(s, byTokio, Store)
      modifies this
      ensures closed && waiter == None && closers == [] && incoming == old(incoming)
      ensures woken == old(woken) + All(old(waiter)) && told == old(told) + old(closers)
      ensures Exec(s, run) == Some(t) && Shows(t) && Stands(t, byTokio, Over)
      ensures if byTokio then t.worker == s.worker else t.tokio == s.tokio
    {
      run, t := [], s;
      closed := true;
      run, t := MarkOn(s, run, t, byTokio, Store);
      var taken := waiter;
      waiter := None;
      run, t := MarkOn(s, run, t, byTokio, Wake);
      if taken.Some? {
        woken := woken + [taken.value];
        run, t := MarkOn(s, run, t, byTokio, Hand(taken.value));
      }
      assert woken == old(woken) + All(old(waiter)) && Shows(t) && Stands(t, byTokio, Sweep);
      run, t := TellAll(s, run, t, byTokio);
    }

    /** The last part of `mark_closed`: takes the close waiters and schedules each. */
    method TellAll(ghost s: State, ghost before: seq<Label>, ghost u: State, ghost byTokio: bool)
      returns (ghost run: seq<Label>, ghost t: State)
      requires Exec(s, before) == Some(u) && Shows(u) && Stands(u, byTokio, Sweep)
      modifies `closers, `told
      ensures closers == [] && told == old(told) + old(closers)
      ensures Exec(s, run) == Some(t) && Shows(t) && Stands(t, byTokio, Over)
      ensures if byTokio then t.worker == u.worker else t.tokio == u.tokio
    {
      var waiting := closers;
      closers := [];
      run, t := MarkOn(s, before, u, byTokio, Sweep);
      assert waiting[0..] == waiting;
      for k := 0 to |waiting|
        invariant closers == [] && told == old(told) + waiting[..k]
        invariant Exec(s, run) == Some(t) && Shows(t) && Stands(t, byTokio, Tell(waiting[k..]))
        invariant if byTokio then t.worker == u.worker else t.tokio == u.tokio
      {
        assert waiting[k..][1..] == waiting[k + 1..];
        told := told + [waiting[k]];
        run, t := MarkOn(s, run, t, byTokio, Tell(waiting[k..]));
      }
      assert waiting[|waiting|..] == [] && waiting[..|waiting|] == waiting;
      run, t := MarkOn(s, run, t, byTokio, Tell([]));
    }

    /** `try_receive`. */
    method TryReceive(ghost s: State) returns (r: Option<nat>, ghost t: State)
      requires Shows(s) && s.worker.Idle?
      modifies `incoming
      ensures r == if old(incoming) == [] then None else Some(old(incoming)[0])
      ensures incoming == if old(incoming) == [] then [] else old(incoming)[1..]
      ensures t == Apply(s, Receive) && Shows(t)
    {
      t := Apply(s, Receive);
      if incoming == [] {
        return None, t;
      }
      r := Some(incoming[0]);
      incoming := incoming[1..];
    }

    /** `notify`: fires at once if a frame is waiting or the socket has closed. */
    method Notify(callback: nat, ghost s: State) returns (ghost run: seq<Label>, ghost t: State)
      requires Shows(s) && s.worker.Idle? && callback == s.past.made
      modifies `waiter, `woken
      ensures var fires := incoming != [] || closed;
        waiter == (if fires then None else Some(callback)) && woken == old(woken) + if fires then [callback] else []
      ensures Exec(s, run) == Some(t) && Shows(t) && t.worker.Idle? && t.tokio == s.tokio
    {
      run, t := [Label.Notify], Apply(s, Label.Notify);
      assert Exec(s, run) == Some(t) by {
        assert run[1..] == [];
      }
      waiter := Some(callback);
      var ready := incoming != [];
      ExecThen(s, run, LoopStep);
      run, t := run + [LoopStep], Apply(t, LoopStep);
      if !ready {
        ready := closed;
        ExecThen(s, run, LoopStep);
        run, t := run + [LoopStep], Apply(t, LoopStep);
      }
      if ready {
        var pending := waiter;
        waiter := None;
        ExecThen(s, run, LoopStep);
        run, t := run + [LoopStep], Apply(t, LoopStep);
        if pending.Some? {
          woken := woken + [pending.value];
          ExecThen(s, run, LoopStep);
          run, t := run + [LoopStep], Apply(t, LoopStep);
        }
      }
    }

    /**
     `on_close`: fires at once if the socket has closed. `raced` is the tokio task closing it between the
     two looks; the callback is then scheduled once all the same, by whichever of the two takes the list.
     */
    method OnClose(callback: nat, raced: bool, ghost s: State) returns (ghost run: seq<Label>, ghost t: State)
      requires Shows(s) && s.worker.Idle? && callback == s.past.asked && (raced ==> s.tokio == Closing(Store))
      modifies this
      ensures closed == (old(closed) || raced) && incoming == old(incoming)
      ensures old(closed) ==> told == old(told) + [callback] && closers == old(closers)
      ensures !old(closed) && raced ==> told == old(told) + old(closers) + [callback] && closers == []
      ensures !closed ==> told == old(told) && closers == old(closers) + [callback]
      ensures old(closed) || !raced ==> waiter == old(waiter) && woken == old(woken)
      ensures !old(closed) && raced ==> waiter == None && woken == old(woken) + All(old(waiter))
      ensures Exec(s, run) == Some(t) && Shows(t) && t.worker.Idle?
    {
      run, t := [Label.OnClose], Apply(s, Label.OnClose);
      assert Exec(s, run) == Some(t) by {
        assert run[1..] == [];
      }
      ExecThen(s, run, LoopStep);
      run, t := run + [LoopStep], Apply(t, LoopStep);
      if closed {
        told := told + [callback];
        return;
      }
      closers := closers + [callback];
      ExecThen(s, run, LoopStep);
      run, t := run + [LoopStep], Apply(t, LoopStep);
      if raced {
        run, t := Interrupted(s, run, t);
      }
      ExecThen(s, run, LoopStep);
      run, t := run + [LoopStep], Apply(t, LoopStep);
      if closed {
        ghost var more;
        more, t := MarkClosed(t, false);
        run := Joined(s, run, more);
        ExecThen(s, run, LoopStep);
        run, t := run + [LoopStep], Apply(t, LoopStep);
      }
    }

    /** The tokio task runs `mark_closed` to its end while the loop is elsewhere. */
    method Interrupted(ghost s: State, ghost before: seq<Label>, ghost u: State)
      returns (ghost run: seq<Label>, ghost t: State)
      requires Exec(s, before) == Some(u) && Shows(u) && u.tokio == Closing(Store)
      modifies this
      ensures closed && waiter == None && closers == [] && incoming == old(incoming)
      ensures woken == old(woken) + All(old(waiter)) && told == old(told) + old(closers)
      ensures Exec(s, run) == Some(t) && Shows(t) && t.tokio == Closing(Over) && t.worker == u.worker
    {
      ghost var more;
      more, t := MarkClosed(u, true);
      run := Joined(s, before, more);
    }
  }

  lemma {:induction false} Joined(s: State, run: seq<Label>, more: seq<Label>) returns (all: seq<Label>)
    requires Exec(s, run).Some?
    ensures Exec(s, all) == Exec(Exec(s, run).value, more)
    decreases |run|
  {
    all := run + more;
    if run == [] {
      assert all == more;
    } else {
      var rest := Joined(Apply(s, run[0]), run[1..], more);
      all := [run[0]] + rest;
      assert all[1..] == rest;
    }
  }
}

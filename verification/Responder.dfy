/**
 The cell, the reservation and the responder as objects (`src/cancel.rs`, `src/server.rs`,
 `src/responder.rs`). Each method run alone is tied to the transition system of `Lifecycle`; what
 holds over every interleaving is proved there.
 */
module Responders {
  import opened Util
  import Lifecycle

  /** An atomic counter: a connection's running handlers, a worker's in-flight requests. */
  class Counter {
    var value: int

    constructor ()
      ensures value == 0
    {
      value := 0;
    }
  }

  class Cancel {
    var state: Lifecycle.Cell
    /** The asyncio task, and those this cell has cancelled. */
    var task: Option<nat>
    var cancelled: seq<nat>

    constructor ()
      ensures state.RUNNING? && task.None? && cancelled == []
    {
      state, task, cancelled := Lifecycle.RUNNING, None, [];
    }

    /** `q` has this cell. */
    ghost predicate Shows(q: Lifecycle.Request)
      reads this
    {
      q.cancellable && q.cell == state && q.task == task.Some? && q.cancels == |cancelled|
    }

    /** Takes the task out and cancels it: a second call finds the slot empty. */
    method CancelTask(ghost q: Lifecycle.Request)
      requires Shows(q)
      modifies this
      ensures Shows(Lifecycle.CancelTask(q))
      ensures task.None? && state == old(state)
      ensures cancelled == if old(task).Some? then old(cancelled) + [old(task).value] else old(cancelled)
    {
      var taken := task;
      task := None;
      if taken.Some? {
        cancelled := cancelled + [taken.value];
      }
    }

    /** Stores the new task, then looks at the flag once more. */
    method Attach(it: nat, ghost q: Lifecycle.Request)
      requires Shows(q) && q.stage.Created? && task.None?
      modifies this
      ensures state == old(state)
      ensures old(state).ABANDONED? ==> task.None? && cancelled == old(cancelled) + [it]
      ensures !old(state).ABANDONED? ==> task == Some(it) && cancelled == old(cancelled)
      ensures var attached := Lifecycle.Next(q, Lifecycle.Attach, 0, 0).request;
        var looked := Lifecycle.Next(attached, Lifecycle.Recheck, 0, 0).request;
        Shows(if looked.stage.Recalled? then Lifecycle.Next(looked, Lifecycle.CancelAtOnce, 0, 0).request else looked)
    {
      task := Some(it);
      if state.ABANDONED? {
        CancelTask(q.(task := true));
      }
    }

    method Answer()
      modifies `state
      ensures state == if old(state).RUNNING? then Lifecycle.ANSWERED else old(state)
    {
      if state.RUNNING? {
        state := Lifecycle.ANSWERED;
      }
    }

    method Forget()
      modifies this
      ensures !state.RUNNING? && (old(state).ABANDONED? ==> state.ABANDONED?)
      ensures task.None? && cancelled == old(cancelled)
    {
      Answer();
      task := None;
    }

    /** The waiting side ends while still armed. Says whether a notice is now due to the worker. */
    method Abandon() returns (noticed: bool)
      modifies `state
      ensures noticed <==> old(state).RUNNING?
      ensures state == if old(state).RUNNING? then Lifecycle.ABANDONED else old(state)
    {
      noticed := state.RUNNING?;
      if noticed {
        state := Lifecycle.ABANDONED;
      }
    }
  }

  /** A place in a connection's handler count, given back when dropped unless handed over. */
  class Reservation {
    var held: Option<Counter>

    constructor (connection: Option<Counter>)
      ensures held == connection
    {
      held := connection;
    }

    method HandOver() returns (connection: Option<Counter>)
      modifies `held
      ensures connection == old(held) && held.None?
    {
      connection := held;
      held := None;
    }

    method Drop()
      modifies this, if held.Some? then {held.value} else {}
      ensures held.None?
      ensures old(held).Some? ==> old(held).value.value == old(held.value.value) - 1
    {
      if held.Some? {
        held.value.value := held.value.value - 1;
        held := None;
      }
    }
  }

  /**
   `Reservation::take`: None when the connection already runs MAX_STREAMS handlers, and then the count is
   as it was.
   */
  method Take(connection: Option<Counter>) returns (r: Option<Reservation>)
    modifies if connection.Some? then {connection.value} else {}
    ensures r.Some? ==> fresh(r.value) && r.value.held == connection
    ensures connection.None? ==> r.Some?
    ensures connection.Some? ==>
      && (r.Some? <==> old(connection.value.value) < Lifecycle.MAX_STREAMS)
      && connection.value.value == old(connection.value.value) + (if r.Some? then 1 else 0)
  {
    if connection.Some? {
      var before := connection.value.value;
      connection.value.value := before + 1;
      if before >= Lifecycle.MAX_STREAMS {
        connection.value.value := connection.value.value - 1;
        return None;
      }
    }
    var taken := new Reservation(connection);
    r := Some(taken);
  }

  datatype Outcome = Delivered | Refused | AlreadySent

  class Responder {
    const worker: Counter
    const connection: Option<Counter>
    const cancel: Option<Cancel>
    var released: bool
    var kept: bool
    /** The reply channel has not been used. */
    var open: bool
    /** The worker's count when the reply went out. */
    ghost var countAtSend: Option<int>

    constructor (worker: Counter, connection: Option<Counter>, cancel: Option<Cancel>)
      requires connection.Some? ==> connection.value != worker
      ensures this.worker == worker && this.connection == connection && this.cancel == cancel
      ensures !released && !kept && open && countAtSend.None? && Apart()
    {
      this.worker, this.connection, this.cancel := worker, connection, cancel;
      released, kept, open, countAtSend := false, false, true, None;
    }

    ghost predicate Apart() {
      connection.Some? ==> connection.value != worker
    }

    /** What a release may touch. */
    ghost function Shared(): set<object> {
      {worker} + (if connection.Some? then {connection.value} else {}) + (if cancel.Some? then {cancel.value} else {})
    }

    /**
     Both counts are one lower than they were, and the cell is empty; or nothing moved, this having been
     done before.
     */
    twostate predicate ReturnedOnce()
      reads this, Shared()
    {
      && released
      && worker.value == old(worker.value) - (if old(released) then 0 else 1)
      && (connection.Some? ==> connection.value.value == old(connection.value.value) - (if old(released) then 0 else 1))
      && (cancel.Some? && !old(released) ==> cancel.value.task.None? && !cancel.value.state.RUNNING?)
    }

    method ReleaseOnce()
      requires Apart()
      modifies `released, Shared()
      ensures ReturnedOnce()
      ensures cancel.Some? ==> cancel.value.cancelled == old(cancel.value.cancelled)
      ensures cancel.Some? && old(released) ==>
        cancel.value.task == old(cancel.value.task) && cancel.value.state == old(cancel.value.state)
      ensures cancel.Some? && old(cancel.value.state).ABANDONED? ==> cancel.value.state.ABANDONED?
    {
      var was := released;
      released := true;
      if !was {
        worker.value := worker.value - 1;
        if connection.Some? {
          connection.value.value := connection.value.value - 1;
        }
        if cancel.Some? {
          cancel.value.Forget();
        }
      }
    }

    /**
     A reply hyper would refuse leaves everything as it was, able to send another. A complete reply
     with nothing kept for afterwards gives the slot back before it can reach the client; any other
     keeps the slot.
     */
    method Deliver(valid: bool, full: bool) returns (r: Outcome)
      requires Apart()
      modifies this, Shared()
      ensures kept == old(kept)
      ensures r.Refused? <==> !valid
      ensures r.AlreadySent? <==> valid && !old(open)
      ensures !r.Delivered? ==> open == old(open) && countAtSend == old(countAtSend)
      ensures r.Delivered? ==> !open && countAtSend == Some(worker.value)
      ensures r.Delivered? && cancel.Some? ==> !cancel.value.state.RUNNING?
      ensures r.Delivered? && full && !kept ==> ReturnedOnce()
      ensures !(r.Delivered? && full && !kept) ==> released == old(released) && worker.value == old(worker.value)
      ensures !(r.Delivered? && full && !kept) && connection.Some? ==>
        connection.value.value == old(connection.value.value)
    {
      if !valid {
        return Refused;
      }
      if !open {
        return AlreadySent;
      }
      open := false;
      if cancel.Some? {
        cancel.value.Answer();
      }
      if full && !kept {
        ReleaseOnce();
      }
      countAtSend := Some(worker.value);
      r := Delivered;
    }

    method Finish()
      requires Apart()
      modifies `released, Shared()
      ensures ReturnedOnce()
    {
      ReleaseOnce();
    }

    /** True when the slot is kept for work left for after the response. */
    method FinishOrKeep() returns (keeps: bool)
      requires Apart()
      modifies `released, Shared()
      ensures keeps == old(kept)
      ensures !keeps ==> ReturnedOnce()
      ensures keeps ==> released == old(released) && worker.value == old(worker.value)
      ensures keeps && connection.Some? ==> connection.value.value == old(connection.value.value)
    {
      if kept {
        return true;
      }
      ReleaseOnce();
      keeps := false;
    }

    method Drop()
      requires Apart()
      modifies `released, Shared()
      ensures ReturnedOnce()
    {
      ReleaseOnce();
    }
  }

  /**
   A handler that keeps work for afterwards: the reply goes out with the slot held, and the three ends
   after it release it once between them.
   */
  method KeptWork(responder: Responder)
    requires responder.Apart() && !responder.released && responder.open && responder.kept
    modifies responder, responder.Shared()
    ensures responder.worker.value == old(responder.worker.value) - 1
    ensures responder.countAtSend == Some(old(responder.worker.value))
    ensures responder.connection.Some? ==> responder.connection.value.value == old(responder.connection.value.value) - 1
  {
    var r := responder.Deliver(true, true);
    var keeps := responder.FinishOrKeep();
    responder.Finish();
    responder.Drop();
  }
}

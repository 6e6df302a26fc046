/**
 The queue and the drain callback as the source writes them, each method proved to be a run of the
 transition system by one thread: what `Dispatch` proves of every interleaving is about this code.
 Run alone, a method does what its contract says; interrupted between its atomic operations, it is
 one thread of a run of `Dispatch`.
 */
module WorkerQueues {
  import opened Util
  import opened Dispatch

  /** The labels of `wake` for producer `i`. */
  ghost function WakeLabels(s: State, i: nat): seq<Label> {
    if s.notified then [Swap(i)] else [Swap(i), StampIt(i), Write(i)]
  }

  ghost function AfterWake(s: State): State {
    if s.notified then s
    else s.(notified := true, flips := s.flips + 1, flippedAt := s.now, stamp := At(s.now), stampedFor := s.flips + 1,
            bytes := s.bytes + 1)
  }

  lemma WakeRuns(s: State, i: nat)
    requires i < |s.producers| && s.producers[i].Pushed?
    ensures Exec(s, WakeLabels(s, i)) == Some(Put(AfterWake(s), i, Resting))
  {
    var s1 := Apply(s, Swap(i));
    if s.notified {
      assert Exec(s1, []) == Some(s1);
    } else {
      var s2 := Apply(s1, StampIt(i));
      var s3 := Apply(s2, Write(i));
      assert Exec(s3, []) == Some(s3);
      assert Exec(s2, [Write(i)]) == Some(s3);
      assert [Swap(i), StampIt(i), Write(i)][1..] == [StampIt(i), Write(i)];
      assert [StampIt(i), Write(i)][1..] == [Write(i)];
      assert s3.producers == s.producers[i := Resting];
    }
  }

  class WorkerQueue {
    var queue: seq<nat>
    var wakeups: seq<nat>
    var cancels: seq<nat>
    var notified: bool
    var notifiedAt: Stamp
    /** Bytes written to the wake pair and not read. */
    var unread: nat
    var inflight: nat
    const limit: nat

    constructor (limit: nat)
      ensures this.limit == limit
      ensures Shows(Initial(0, limit))
    {
      queue, wakeups, cancels := [], [], [];
      notified, notifiedAt, unread := false, IDLE, 0;
      inflight, this.limit := 0, limit;
    }

    /** `s` is this queue, seen with some threads around it. */
    ghost predicate Shows(s: State)
      reads this
    {
      && s.requests == queue && s.wakeups == wakeups && s.cancels == cancels
      && s.notified == notified && s.stamp == notifiedAt && s.bytes == unread
      && s.inflight == inflight && s.limit == limit
    }

    function Load(): (n: nat)
      reads this
      ensures n >= |queue| && (n == 0 <==> queue == [] && inflight == 0)
    {
      |queue| + inflight
    }

    predicate HasRoom()
      reads this
    {
      Load() < limit
    }

    method Claim()
      modifies `inflight
      ensures inflight == old(inflight) + 1
    {
      inflight := inflight + 1;
    }

    method Release()
      requires inflight > 0
      modifies `inflight
      ensures inflight == old(inflight) - 1
    {
      inflight := inflight - 1;
    }

    /** Only the thread that turns the flag on stamps it and writes the byte. */
    method Wake(now: nat)
      modifies `notified, `notifiedAt, `unread
      ensures notified
      ensures old(notified) ==> notifiedAt == old(notifiedAt) && unread == old(unread)
      ensures !old(notified) ==> notifiedAt == At(now) && unread == old(unread) + 1
    {
      var was := notified;
      notified := true;
      if !was {
        notifiedAt := At(now);
        unread := unread + 1;
      }
    }

    method TryPush(item: nat, now: nat, ghost s: State, ghost i: nat) returns (ok: bool, ghost run: seq<Label>)
      requires Shows(s) && s.now == now && i < |s.producers| && s.producers[i].Resting?
      modifies this
      ensures ok <==> old(HasRoom())
      ensures ok ==> queue == old(queue) + [item] && notified
      ensures !ok ==> queue == old(queue) && notified == old(notified) && unread == old(unread)
      ensures inflight == old(inflight) && wakeups == old(wakeups) && cancels == old(cancels)
      ensures Exec(s, run).Some? && Shows(Exec(s, run).value) && Exec(s, run).value.producers == s.producers
    {
      run := [Measure(i, item), Decide(i)];
      ghost var s1 := Apply(s, Measure(i, item));
      ghost var s2 := Apply(s1, Decide(i));
      assert Exec(s2, []) == Some(s2) && run[1..] == [Decide(i)] && Exec(s1, [Decide(i)]) == Some(s2);
      if !HasRoom() {
        assert s2.producers == s.producers;
        return false, run;
      }
      queue := queue + [item];
      Wake(now);
      ok := true;
      ghost var s3 := Apply(s2, PushRequest(i));
      run := run + ([PushRequest(i)] + WakeLabels(s3, i));
      WakeRuns(s3, i);
      assert ([PushRequest(i)] + WakeLabels(s3, i))[1..] == WakeLabels(s3, i);
      ExecConcat(s, [Measure(i, item), Decide(i)], [PushRequest(i)] + WakeLabels(s3, i));
      assert Put(AfterWake(s3), i, Resting).producers == s.producers;
    }

    method PushWakeup(callback: nat, now: nat, ghost s: State, ghost i: nat) returns (ghost run: seq<Label>)
      requires Shows(s) && s.now == now && i < |s.producers| && s.producers[i].Resting?
      modifies this
      ensures wakeups == old(wakeups) + [callback] && notified
      ensures inflight == old(inflight) && queue == old(queue) && cancels == old(cancels)
      ensures Exec(s, run).Some? && Shows(Exec(s, run).value) && Exec(s, run).value.producers == s.producers
    {
      wakeups := wakeups + [callback];
      Wake(now);
      run := PushRun(s, i, Wakeups, callback);
    }

    method PushCancel(cell: nat, now: nat, ghost s: State, ghost i: nat) returns (ghost run: seq<Label>)
      requires Shows(s) && s.now == now && i < |s.producers| && s.producers[i].Resting?
      modifies this
      ensures cancels == old(cancels) + [cell] && notified
      ensures inflight == old(inflight) && queue == old(queue) && wakeups == old(wakeups)
      ensures Exec(s, run).Some? && Shows(Exec(s, run).value) && Exec(s, run).value.producers == s.producers
    {
      cancels := cancels + [cell];
      Wake(now);
      run := PushRun(s, i, Cancels, cell);
    }

    method ClearNotified()
      modifies `notified, `notifiedAt
      ensures !notified && notifiedAt == IDLE
    {
      notifiedAt := IDLE;
      notified := false;
    }

    method RewakeIfPending(now: nat)
      modifies `notified, `notifiedAt, `unread
      ensures queue == [] && wakeups == [] && cancels == [] ==>
                notified == old(notified) && notifiedAt == old(notifiedAt) && unread == old(unread)
      ensures !(queue == [] && wakeups == [] && cancels == []) ==>
        notified && (!old(notified) ==> unread == old(unread) + 1)
    {
      if queue != [] || wakeups != [] || cancels != [] {
        Wake(now);
      }
    }

    /** `WakeReader::drain`: reads until a read comes up short of the buffer. */
    method DrainSocket()
      modifies `unread
      ensures unread == 0
    {
      while true
        decreases unread
      {
        var n := if unread < 64 then unread else 64;
        unread := unread - n;
        if n < 64 { break; }
      }
    }
  }

  /** One push onto the wakeups or the cancels, with its wake. */
  lemma PushRun(s: State, i: nat, c: Channel, item: nat) returns (run: seq<Label>)
    requires i < |s.producers| && s.producers[i].Resting? && !c.Requests?
    ensures Exec(s, run) == Some(AfterWake(SetQueue(s, c, Queue(s, c) + [item])))
  {
    var s1 := Apply(s, PushOther(i, c, item));
    WakeRuns(s1, i);
    run := [PushOther(i, c, item)] + WakeLabels(s1, i);
    assert run[1..] == WakeLabels(s1, i);
    assert Put(AfterWake(s1), i, Resting).producers == s.producers;
  }

  /** One step of the callback at the end of a run. */
  lemma Then(s: State, run: seq<Label>, a: Label)
    requires Exec(s, run).Some? && Ready(Exec(s, run).value, a)
    ensures Exec(s, run + [a]) == Some(Apply(Exec(s, run).value, a))
  {
    var t := Exec(s, run).value;
    ExecConcat(s, run, [a]);
    assert Exec(Apply(t, a), []) == Some(Apply(t, a));
  }

  /** The requests of `items` whose client has not left, in order. */
  function Kept(items: seq<nat>, abandoned: set<nat>): seq<nat> {
    if items == [] then []
    else Kept(items[..|items| - 1], abandoned)
         + (if items[|items| - 1] in abandoned then [] else [items[|items| - 1]])
  }

  class Drainer {
    const queue: WorkerQueue

    constructor (queue: WorkerQueue)
      ensures this.queue == queue
    {
      this.queue := queue;
    }

    /**
     The callback the loop makes when the socket is readable. `abandoned` are the requests whose
     cell says their client is gone. With nobody racing it, it runs every callback, handles every
     notice and starts every live request, each in the order queued, and leaves nothing armed.
     */
    method Call(abandoned: set<nat>, now: nat, ghost s: State)
      returns (ran: seq<nat>, cancelled: seq<nat>, started: seq<nat>, ghost run: seq<Label>)
      requires queue.Shows(s) && s.drainer.Asleep? && queue.unread > 0
      modifies queue
      ensures ran == old(queue.wakeups) && cancelled == old(queue.cancels)
      ensures started == Kept(old(queue.queue), abandoned)
      ensures queue.inflight == old(queue.inflight) + |started|
      ensures queue.queue == [] && queue.wakeups == [] && queue.cancels == []
      ensures !queue.notified && queue.notifiedAt == IDLE && queue.unread == 0
      ensures Exec(s, run).Some? && queue.Shows(Exec(s, run).value)
      ensures Exec(s, run).value.drainer.Asleep? && Exec(s, run).value.producers == s.producers
    {
      ghost var t;
      run, t := Begin(s);
      ran, run, t := RunCallbacks(s, run, t);
      Then(s, run, Drain); run := run + [Drain]; t := Apply(t, Drain);
      cancelled, run, t := HandleNotices(s, run, t);
      Then(s, run, Drain); run := run + [Drain]; t := Apply(t, Drain);
      started, run, t := StartAll(abandoned, s, run, t);
      queue.RewakeIfPending(now);
      run := NothingLeft(s, run, t);
    }

    /** Empties the socket and clears the flag, before anything is popped. */
    method Begin(ghost s: State) returns (ghost run: seq<Label>, ghost t: State)
      requires queue.Shows(s) && s.drainer.Asleep? && queue.unread > 0
      modifies queue`unread, queue`notified, queue`notifiedAt
      ensures !queue.notified && queue.notifiedAt == IDLE && queue.unread == 0
      ensures Exec(s, run) == Some(t) && queue.Shows(t) && t.drainer == Popping(Wakeups) && t.producers == s.producers
    {
      run := [];
      queue.DrainSocket();
      Then(s, run, Drain); run := run + [Drain];
      queue.ClearNotified();
      Then(s, run, Drain); run := run + [Drain];
      Then(s, run, Drain); run := run + [Drain];
      t := Exec(s, run).value;
    }

    /** The first loop: every callback is run, in the order queued. */
    method RunCallbacks(ghost s: State, ghost before: seq<Label>, ghost u: State)
      returns (ran: seq<nat>, ghost run: seq<Label>, ghost t: State)
      requires Exec(s, before) == Some(u) && queue.Shows(u) && u.drainer == Popping(Wakeups)
      modifies queue`wakeups
      ensures ran == old(queue.wakeups) && queue.wakeups == []
      ensures Exec(s, run) == Some(t) && queue.Shows(t) && t.drainer == Popping(Wakeups) && t.producers == u.producers
    {
      ran, run, t := [], before, u;
      while queue.wakeups != []
        invariant Exec(s, run) == Some(t) && queue.Shows(t) && t.drainer == Popping(Wakeups)
          && t.producers == u.producers
        invariant ran + queue.wakeups == old(queue.wakeups)
        decreases |queue.wakeups|
      {
        var callback := queue.wakeups[0];
        queue.wakeups := queue.wakeups[1..];
        ran := ran + [callback];
        Then(s, run, Drain); run := run + [Drain]; t := Apply(t, Drain);
      }
    }

    /** The second loop: every notice's task is cancelled, in the order queued. */
    method HandleNotices(ghost s: State, ghost before: seq<Label>, ghost u: State)
      returns (cancelled: seq<nat>, ghost run: seq<Label>, ghost t: State)
      requires Exec(s, before) == Some(u) && queue.Shows(u) && u.drainer == Popping(Cancels)
      modifies queue`cancels
      ensures cancelled == old(queue.cancels) && queue.cancels == []
      ensures Exec(s, run) == Some(t) && queue.Shows(t) && t.drainer == Popping(Cancels) && t.producers == u.producers
    {
      cancelled, run, t := [], before, u;
      while queue.cancels != []
        invariant Exec(s, run) == Some(t) && queue.Shows(t) && t.drainer == Popping(Cancels)
          && t.producers == u.producers
        invariant cancelled + queue.cancels == old(queue.cancels)
        decreases |queue.cancels|
      {
        var cell := queue.cancels[0];
        queue.cancels := queue.cancels[1..];
        cancelled := cancelled + [cell];
        Then(s, run, Drain); run := run + [Drain]; t := Apply(t, Drain);
      }
    }

    /** The request loop: each popped request is dropped if its client left, else claimed and started. */
    method StartAll(abandoned: set<nat>, ghost s: State, ghost before: seq<Label>, ghost u: State)
      returns (started: seq<nat>, ghost run: seq<Label>, ghost t: State)
      requires Exec(s, before) == Some(u) && queue.Shows(u) && u.drainer == Popping(Requests)
      modifies queue`queue, queue`inflight
      ensures started == Kept(old(queue.queue), abandoned)
      ensures queue.inflight == old(queue.inflight) + |started| && queue.queue == []
      ensures Exec(s, run) == Some(t) && queue.Shows(t) && t.drainer == Popping(Requests) && t.producers == u.producers
    {
      started, run, t := [], before, u;
      ghost var done := 0;
      ghost var all := queue.queue;
      while queue.queue != []
        invariant done <= |all| && queue.queue == all[done..]
        invariant started == Kept(all[..done], abandoned)
        invariant queue.inflight == old(queue.inflight) + |started|
        invariant Exec(s, run) == Some(t) && queue.Shows(t) && t.drainer == Popping(Requests)
          && t.producers == u.producers
        decreases |queue.queue|
      {
        var item := queue.queue[0];
        queue.queue := queue.queue[1..];
        Then(s, run, Drain); run := run + [Drain]; t := Apply(t, Drain);
        assert all[..done + 1][..done] == all[..done];
        done := done + 1;
        if item in abandoned {
          Then(s, run, Discard); run := run + [Discard]; t := Apply(t, Discard);
          continue;
        }
        queue.Claim();
        started := started + [item];
        Then(s, run, Drain); run := run + [Drain]; t := Apply(t, Drain);
      }
      assert all[..done] == all;
    }
  }

  /** With every queue empty the callback finds nothing to re-arm for, and sleeps. */
  lemma NothingLeft(s: State, run: seq<Label>, t: State) returns (more: seq<Label>)
    requires Exec(s, run) == Some(t) && t.drainer == Popping(Requests)
    requires t.wakeups == [] && t.cancels == [] && t.requests == []
    ensures Exec(s, more) == Some(t.(drainer := Asleep))
  {
    more := run;
    Then(s, more, Drain); more := more + [Drain];
    Then(s, more, Drain); more := more + [Drain];
    Then(s, more, Drain); more := more + [Drain];
    Then(s, more, Drain); more := more + [Drain];
  }
}

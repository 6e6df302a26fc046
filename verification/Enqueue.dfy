/** Handing a request to the least-loaded worker with room: `enqueue` in `src/server.rs`. */
module Enqueueing {
  import opened Util
  import opened Dispatch
  import opened WorkerQueues

  const USIZE_MAX: nat := 0xFFFF_FFFF_FFFF_FFFF

  /** The `k`-th worker looked at from `start`. */
  function Nth(start: nat, k: nat, count: nat): (i: nat)
    requires count > 0
    ensures i < count
  {
    (start + k) % count
  }

  function Loads(workers: seq<WorkerQueue>): (loads: seq<nat>)
    reads workers
    ensures |loads| == |workers| && forall i :: 0 <= i < |workers| ==> loads[i] == workers[i].Load()
  {
    seq(|workers|, i requires 0 <= i < |workers| reads workers => workers[i].Load())
  }

  /** `k` is the first place, in the order looked at, with the smallest load. */
  ghost predicate FirstLightest(loads: seq<nat>, rotation: nat, k: nat) {
    && k < |loads|
    && (forall j: nat | j < |loads| :: loads[Nth(rotation, k, |loads|)] <= loads[Nth(rotation, j, |loads|)])
    && (forall j: nat | j < k :: loads[Nth(rotation, k, |loads|)] < loads[Nth(rotation, j, |loads|)])
  }

  ghost predicate Distinct(workers: seq<WorkerQueue>) {
    forall i, j :: 0 <= i < j < |workers| ==> workers[i] != workers[j]
  }

  /** The scan for the lightest worker: stops early at an idle one, which nothing can beat. */
  method Lightest(workers: seq<WorkerQueue>, rotation: nat) returns (start: nat, ghost place: nat)
    requires |workers| > 0
    requires forall w | w in workers :: w.Load() < USIZE_MAX
    ensures FirstLightest(Loads(workers), rotation, place)
    ensures start == Nth(rotation, place, |workers|)
  {
    var count := |workers|;
    start, place := rotation % count, 0;
    var lightest := USIZE_MAX;
    var offset := 0;
    while offset < count
      invariant offset <= count
      invariant offset == 0 ==> lightest == USIZE_MAX
      invariant offset > 0 ==>
        place < offset && start == Nth(rotation, place, count) && lightest == Loads(workers)[start]
      invariant forall j: nat | j < offset :: lightest <= Loads(workers)[Nth(rotation, j, count)]
      invariant forall j: nat | j < offset && j < place :: lightest < Loads(workers)[Nth(rotation, j, count)]
    {
      var idx := (rotation + offset) % count;
      var load := workers[idx].Load();
      assert load == Loads(workers)[Nth(rotation, offset, count)];
      if load < lightest {
        lightest := load;
        start := idx;
        place := offset;
        if load == 0 {
          break;
        }
      }
      offset := offset + 1;
    }
  }

  /**
   With nobody racing it: the request is pushed onto exactly one worker or onto none. It goes to the
   first of the least loaded in rotation order, or, if that one is full, to the next with room round
   from there; it is refused only when every worker is at its limit.
   */
  method Enqueue(workers: seq<WorkerQueue>, rotation: nat, item: nat, now: nat)
    returns (taken: Option<nat>, ghost place: nat)
    requires |workers| > 0 && Distinct(workers)
    requires forall w | w in workers :: w.Load() < USIZE_MAX
    modifies workers
    ensures FirstLightest(old(Loads(workers)), rotation, place)
    ensures taken.None? ==> forall i :: 0 <= i < |workers| ==>
      !old(workers[i].HasRoom()) && workers[i].queue == old(workers[i].queue)
    ensures taken.Some? ==>
      && taken.value < |workers| && old(workers[taken.value].HasRoom())
      && workers[taken.value].queue == old(workers[taken.value].queue) + [item]
      && (forall i :: 0 <= i < |workers| && i != taken.value ==> workers[i].queue == old(workers[i].queue))
      && exists k: nat :: k < |workers| && taken.value == Nth(Nth(rotation, place, |workers|), k, |workers|)
           && forall j: nat :: j < k ==> !old(workers[Nth(Nth(rotation, place, |workers|), j, |workers|)].HasRoom())
    ensures forall i :: 0 <= i < |workers| ==> workers[i].inflight == old(workers[i].inflight)
  {
    var start;
    start, place := Lightest(workers, rotation);
    var count := |workers|;
    var offset := 0;
    while offset < count
      invariant offset <= count
      invariant forall i :: 0 <= i < |workers| ==>
        Untouched(workers[i], old(workers[i].queue), old(workers[i].inflight))
      invariant forall j: nat | j < offset :: !old(workers[Nth(start, j, count)].HasRoom())
    {
      var idx := (start + offset) % count;
      ghost var around := Around(workers[idx], now);
      assert workers[idx].HasRoom() == old(workers[idx].HasRoom());
      var ok, _ := workers[idx].TryPush(item, now, around, 0);
      if ok {
        assert idx == Nth(start, offset, count);
        return Some(idx), place;
      }
      offset := offset + 1;
    }
    taken := None;
    forall i | 0 <= i < |workers| ensures !old(workers[i].HasRoom()) {
      var j := Meets(start, i, count);
    }
  }

  ghost predicate Untouched(w: WorkerQueue, queue: seq<nat>, inflight: nat)
    reads w
  {
    w.queue == queue && w.inflight == inflight
  }

  /** The queue with one resting producer beside it. */
  ghost function Around(w: WorkerQueue, now: nat): (s: State)
    reads w
    ensures w.Shows(s) && s.now == now && s.producers == [Resting]
  {
    State(w.wakeups, w.cancels, w.queue, w.notified, w.notifiedAt, w.unread, w.inflight, w.limit, [Resting],
          Asleep, now, 0, 0, 0, 0)
  }

  lemma ProductAtLeast(d: int, n: nat)
    requires d >= 1
    ensures d * n >= n
  {
    assert d * n == (d - 1) * n + n;
  }

  lemma Remainder(m: nat, i: nat, n: nat)
    requires i < n
    ensures (m * n + i) % n == i
  {
    var x := m * n + i;
    var d := x / n - m;
    assert x == n * (x / n) + x % n;
    assert d * n == n * (x / n) - m * n;
    assert -d * n == -(d * n);
    if d >= 1 {
      ProductAtLeast(d, n);
    } else if d <= -1 {
      ProductAtLeast(-d, n);
    }
  }

  /** Going round from `start` meets every worker. */
  lemma Meets(start: nat, i: nat, count: nat) returns (k: nat)
    requires i < count
    ensures k < count && Nth(start, k, count) == i
  {
    var q, r := start / count, start % count;
    assert start == q * count + r;
    if i >= r {
      k := i - r;
      Remainder(q, i, count);
    } else {
      k := i + count - r;
      Remainder(q + 1, i, count);
      assert (q + 1) * count == q * count + count;
    }
  }

  /** Where every worker has the same limit, the request goes to the first of the least loaded, or nowhere. */
  lemma LightestOrNone(loads: seq<nat>, limit: nat, rotation: nat, place: nat, taken: nat, k: nat)
    requires |loads| > 0 && FirstLightest(loads, rotation, place)
    requires k < |loads| && taken == Nth(Nth(rotation, place, |loads|), k, |loads|) && loads[taken] < limit
    requires forall j: nat :: j < k ==> loads[Nth(Nth(rotation, place, |loads|), j, |loads|)] >= limit
    ensures taken == Nth(rotation, place, |loads|)
  {
    var first := Nth(rotation, place, |loads|);
    Remainder(0, first, |loads|);
    assert Nth(first, 0, |loads|) == first;
    var back := Meets(rotation, taken, |loads|);
    assert loads[first] <= loads[Nth(rotation, back, |loads|)];
  }
}

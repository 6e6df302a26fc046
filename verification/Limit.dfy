/**
 The rate limiter of src/limit.rs. One shard is a map from a key to the time its budget is next fully
 spent; it forgets entries whose time has passed. `Spend` is one call on a shard in the u64 arithmetic
 of the source, `Replies` a run of calls in the order they took the shard's lock. Beside it stands the
 simple form, a ledger in unbounded arithmetic that never forgets.
 */
module Limits {
  import opened Util

  const U64: nat := 0x1_0000_0000_0000_0000
  const SHARDS: nat := 64
  const SWEEP_FLOOR: nat := 64

  datatype Answer = Allowed | Refused(wait: nat)

  datatype Config = Config(interval: nat, tolerance: nat)

  datatype Shard = Shard(spent: map<nat, nat>, sweepAt: nat)

  /** A request of `key`, at `now` nanoseconds since the limiter started. */
  datatype Call = Call(key: nat, now: nat)

  datatype Decision = Decision(answer: Answer, stored: Option<nat>)

  function Max(a: int, b: int): int {
    if a < b then b else a
  }

  /** What `Limit::new` guarantees of its two numbers. */
  predicate Proper(c: Config) {
    1 <= c.interval <= c.tolerance < U64
  }

  function Lookup(m: map<nat, nat>, key: nat): Option<nat> {
    if key in m then Some(m[key]) else None
  }

  function Stored(o: Option<nat>, default: nat): nat {
    if o.Some? then o.value else default
  }

  // ----- The arithmetic of one call -----

  /** The rule over unbounded numbers. */
  function Decide(c: Config, stored: Option<nat>, now: nat): Decision {
    var next := Max(Stored(stored, now), now) + c.interval;
    if next - now > c.tolerance then Decision(Refused(next - c.tolerance - now), stored)
    else Decision(Allowed, Some(next))
  }

  function Wrap(x: int): nat {
    x % U64
  }

  /** The rule as written, every sum and difference a u64 that wraps around. */
  function DecideU64(c: Config, stored: Option<nat>, now: nat): Decision {
    var next := Wrap(Max(Stored(stored, now), now) + c.interval);
    if Wrap(next - now) > c.tolerance then Decision(Refused(Wrap(Wrap(next - c.tolerance) - now)), stored)
    else Decision(Allowed, Some(next))
  }

  /** The last instant at which no sum can leave 64 bits. */
  function Horizon(c: Config): int {
    U64 - 1 - c.tolerance - c.interval
  }

  lemma NoWrap(c: Config, stored: Option<nat>, now: nat)
    requires Proper(c) && now <= Horizon(c)
    requires stored.Some? ==> stored.value <= Horizon(c) + c.tolerance
    ensures DecideU64(c, stored, now) == Decide(c, stored, now)
    ensures var d := Decide(c, stored, now); d.answer.Allowed? ==> now < d.stored.value <= now + c.tolerance
  {
    var next := Max(Stored(stored, now), now) + c.interval;
    assert 0 <= next < U64 && Wrap(next) == next;
    assert 0 <= next - now < U64 && Wrap(next - now) == next - now;
    if next - now > c.tolerance {
      assert 0 <= next - c.tolerance < U64 && Wrap(next - c.tolerance) == next - c.tolerance;
      assert 0 <= next - c.tolerance - now < U64;
    }
  }

  /**
   Dropping an entry leaves both the answer and what is stored as they were exactly when its time has
   passed by the time of the next call.
   */
  lemma ForgettingIsHarmlessIff(c: Config, spent: nat, now: nat)
    requires Proper(c)
    ensures Decide(c, None, now) == Decide(c, Some(spent), now) <==> spent <= now
  {
  }

  // ----- A shard -----

  function Kept(spent: map<nat, nat>, now: nat): (m: map<nat, nat>)
    ensures |m| <= |spent|
  {
    var m := map k | k in spent && spent[k] > now :: spent[k];
    KeptIsSmaller(spent, m);
    m
  }

  lemma KeptIsSmaller(spent: map<nat, nat>, m: map<nat, nat>)
    requires forall k :: k in m ==> k in spent
    ensures |m| <= |spent|
  {
    assert m.Keys <= spent.Keys;
    SubsetIsSmaller(m.Keys, spent.Keys);
    assert |m.Keys| == |m| && |spent.Keys| == |spent|;
  }

  lemma {:induction false} SubsetIsSmaller(a: set<nat>, b: set<nat>)
    requires a <= b
    ensures |a| <= |b|
  {
    if x :| x in a {
      SubsetIsSmaller(a - {x}, b - {x});
    }
  }

  function Fresh(): Shard {
    Shard(map[], SWEEP_FLOOR)
  }

  /** The map of a shard after an admission stored `next`, before it is swept. */
  function Inserted(s: Shard, key: nat, next: nat): map<nat, nat> {
    s.spent[key := next]
  }

  function Swept(spent: map<nat, nat>, now: nat): Shard {
    var kept := Kept(spent, now);
    Shard(kept, Max(|kept| * 2, SWEEP_FLOOR))
  }

  function Decided(c: Config, s: Shard, call: Call): Decision {
    DecideU64(c, Lookup(s.spent, call.key), call.now)
  }

  predicate Sweeps(c: Config, s: Shard, call: Call) {
    var d := Decided(c, s, call);
    d.answer.Allowed? && |Inserted(s, call.key, d.stored.value)| >= s.sweepAt
  }

  function Next(c: Config, s: Shard, call: Call): Shard {
    var d := Decided(c, s, call);
    if d.answer.Refused? then s
    else
      var spent := Inserted(s, call.key, d.stored.value);
      if |spent| >= s.sweepAt then Swept(spent, call.now) else Shard(spent, s.sweepAt)
  }

  // ----- Runs of a shard -----

  function Front(calls: seq<Call>): seq<Call>
    requires calls != []
  {
    calls[..|calls| - 1]
  }

  function Last(calls: seq<Call>): Call
    requires calls != []
  {
    calls[|calls| - 1]
  }

  function After(c: Config, calls: seq<Call>): Shard {
    if calls == [] then Fresh() else Next(c, After(c, Front(calls)), Last(calls))
  }

  function Replies(c: Config, calls: seq<Call>): (r: seq<Answer>)
    ensures |r| == |calls|
  {
    if calls == [] then []
    else Replies(c, Front(calls)) + [Decided(c, After(c, Front(calls)), Last(calls)).answer]
  }

  /** When the shard was last swept, zero before the first sweep. */
  function LastSweep(c: Config, calls: seq<Call>): nat {
    if calls == [] then 0
    else if Sweeps(c, After(c, Front(calls)), Last(calls)) then Last(calls).now
    else LastSweep(c, Front(calls))
  }

  /**
   What forgetting needs of the clock: no call is earlier than the shard's last sweep, and none past
   the horizon of 64 bits. Calls may otherwise take the lock in any order of their times.
   */
  predicate ClockHolds(c: Config, calls: seq<Call>) {
    calls == [] || (LastSweep(c, Front(calls)) <= Last(calls).now <= Horizon(c) && ClockHolds(c, Front(calls)))
  }

  predicate Monotone(calls: seq<Call>) {
    forall i, j :: 0 <= i < j < |calls| ==> calls[i].now <= calls[j].now
  }

  // ----- The simple form: a ledger that never forgets -----

  function LedgerNext(c: Config, ledger: map<nat, nat>, call: Call): map<nat, nat> {
    var d := Decide(c, Lookup(ledger, call.key), call.now);
    if d.answer.Refused? then ledger else ledger[call.key := d.stored.value]
  }

  function LedgerAfter(c: Config, calls: seq<Call>): map<nat, nat> {
    if calls == [] then map[] else LedgerNext(c, LedgerAfter(c, Front(calls)), Last(calls))
  }

  function LedgerReplies(c: Config, calls: seq<Call>): (r: seq<Answer>)
    ensures |r| == |calls|
  {
    if calls == [] then []
    else LedgerReplies(c, Front(calls))
         + [Decide(c, Lookup(LedgerAfter(c, Front(calls)), Last(calls).key), Last(calls).now).answer]
  }

  // ----- The limiter: one such run in each shard -----

  /** Keys are uniform 64-bit numbers; the shard is the top six bits. */
  function ShardOf(key: nat): (i: nat)
    requires key < U64
    ensures i < SHARDS
  {
    key / 0x400_0000_0000_0000
  }

  class Limit {
    const config: Config
    var shards: array<Shard>
    /** The calls each shard has answered, in the order they took its lock. */
    ghost var history: seq<seq<Call>>

    ghost predicate Valid()
      reads this, shards
    {
      && Proper(config)
      && shards.Length == SHARDS == |history|
      && forall i :: 0 <= i < SHARDS ==> shards[i] == After(config, history[i])
    }

    constructor (interval: nat, burst: nat)
      requires interval < U64 && burst < U64
      ensures Valid() && fresh(shards)
      ensures config.interval == Max(interval, 1)
      ensures var product := config.interval * Max(burst, 1);
        config.tolerance == if product < U64 then product else U64 - 1
      ensures forall i :: 0 <= i < SHARDS ==> history[i] == []
    {
      var each := Max(interval, 1);
      var product := each * Max(burst, 1);
      assert product >= each by {
        Grows(each, Max(burst, 1));
      }
      config := Config(each, if product < U64 then product else U64 - 1);
      history := seq(SHARDS, i => []);
      shards := new Shard[SHARDS](_ => Fresh());
    }

    /** Spend one request of the key's budget, or say how long until there is one to spend. */
    method Spend(key: nat, now: nat) returns (r: Answer)
      requires Valid() && key < U64 && now < U64
      modifies shards, `history
      ensures Valid() && shards == old(shards)
      ensures history == old(history)[ShardOf(key) := old(history)[ShardOf(key)] + [Call(key, now)]]
      ensures var calls := history[ShardOf(key)]; r == Replies(config, calls)[|calls| - 1]
    {
      var i := ShardOf(key);
      ghost var call := Call(key, now);
      ghost var was := history[i];
      history := history[i := was + [call]];
      Answered(config, was, call);
      var shard;
      shard, r := SpendHeld(key, now, shards[i]);
      shards[i] := shard;
    }

    /** The part of `Spend` under the shard's lock. */
    method SpendHeld(key: nat, now: nat, held: Shard) returns (shard: Shard, r: Answer)
      ensures shard == Next(config, held, Call(key, now))
      ensures r == Decided(config, held, Call(key, now)).answer
    {
      shard := held;
      var spent := Max(if key in held.spent then held.spent[key] else now, now);
      var next := Wrap(spent + config.interval);
      if Wrap(next - now) > config.tolerance {
        return shard, Refused(Wrap(Wrap(next - config.tolerance) - now));
      }
      shard := shard.(spent := shard.spent[key := next]);
      if |shard.spent| >= shard.sweepAt {
        shard := shard.(spent := Kept(shard.spent, now));
        shard := shard.(sweepAt := Max(|shard.spent| * 2, SWEEP_FLOOR));
      }
      r := Allowed;
    }
  }

  lemma Answered(c: Config, calls: seq<Call>, call: Call)
    ensures var s := After(c, calls);
      After(c, calls + [call]) == Next(c, s, call) && Replies(c, calls + [call])[|calls|] == Decided(c, s, call).answer
  {
    assert Front(calls + [call]) == calls && Last(calls + [call]) == call;
  }

  lemma Grows(a: nat, b: nat)
    requires b >= 1
    ensures a * b >= a
  {
  }

  // ----- The bounds Python puts on the two numbers -----

  datatype Unit = Second | Minute | Hour | Day

  const MAX_BURST: nat := 100_000
  const MAX_COUNT: nat := 1_000_000
  const NANOS: nat := 1_000_000_000

  function Seconds(unit: Unit): nat {
    match unit
    case Second => 1
    case Minute => 60
    case Hour => 3600
    case Day => 86400
  }

  datatype Rate = Rate(interval: nat, burst: nat)

  /** `RateLimit.__init__` on a rate already split into its count and unit. */
  function RateLimit(count: nat, unit: Unit, burst: Option<int>): Option<Rate> {
    if !(1 <= count <= MAX_COUNT) then None
    else
      var b := if burst.None? then (if count < MAX_BURST then count else MAX_BURST) else burst.value;
      if !(1 <= b <= MAX_BURST) then None else Some(Rate(Seconds(unit) * NANOS / count, b))
  }

  /** Three hundred and ten years of nanoseconds. */
  const THREE_CENTURIES: nat := 310 * 31_557_600 * NANOS

  /**
   Every limit Python builds leaves `burst` intervals unsaturated and the clock three centuries before
   any sum in `spend` could leave 64 bits.
   */
  lemma PythonBoundsFit(count: nat, unit: Unit, burst: Option<int>)
    ensures var made := RateLimit(count, unit, burst);
      made.Some? ==>
        && 1000 <= made.value.interval && 1 <= made.value.burst
        && made.value.interval * made.value.burst < U64
        && Horizon(Config(made.value.interval, made.value.interval * made.value.burst)) >= THREE_CENTURIES
  {
    var made := RateLimit(count, unit, burst);
    if made.Some? {
      var i, b := made.value.interval, made.value.burst;
      IntervalFits(count, unit);
      assert i <= 86400 * NANOS;
      Product(i, b, 86400 * NANOS, MAX_BURST);
    }
  }

  lemma IntervalFits(count: nat, unit: Unit)
    requires 1 <= count <= MAX_COUNT
    ensures 1000 <= Seconds(unit) * NANOS / count <= 86400 * NANOS
  {
    var period: nat := Seconds(unit) * NANOS;
    var i: nat := period / count;
    assert i * count <= period < i * count + count == (i + 1) * count;
    Product(i + 1, count, i + 1, MAX_COUNT);
    Grows(i, count);
  }

  lemma Product(a: nat, b: nat, c: nat, d: nat)
    requires a <= c && b <= d
    ensures a * b <= c * d
  {
    assert a * b <= c * b <= c * d;
  }
}

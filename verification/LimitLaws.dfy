/**
 What the limiter promises of every run of calls: forgetting changes no answer, a key's admissions are
 bounded in every window and the bound is reached, the rule is a continuously refilled token bucket, a
 refusal's wait is exact, and sweeping is paid for by inserts.
 */
module LimitLaws {
  import opened Util
  import opened Limits

  // ----- Forgetting -----

  /** The shard holds what the ledger holds, save entries whose time had passed at the last sweep. */
  ghost predicate Agree(c: Config, spent: map<nat, nat>, ledger: map<nat, nat>, swept: nat) {
    && (forall k :: k in spent ==> k in ledger && ledger[k] == spent[k] <= Horizon(c) + c.tolerance)
    && (forall k :: k in ledger && k !in spent ==> ledger[k] <= swept)
  }

  lemma SameDecision(c: Config, spent: map<nat, nat>, ledger: map<nat, nat>, swept: nat, call: Call)
    requires Proper(c) && Agree(c, spent, ledger, swept) && swept <= call.now <= Horizon(c)
    ensures var d := DecideU64(c, Lookup(spent, call.key), call.now);
      var e := Decide(c, Lookup(ledger, call.key), call.now);
      && d.answer == e.answer
      && (d.answer.Allowed? ==> d == e && call.now < d.stored.value <= call.now + c.tolerance)
  {
    NoWrap(c, Lookup(spent, call.key), call.now);
    if call.key in ledger && call.key !in spent {
      ForgettingIsHarmlessIff(c, ledger[call.key], call.now);
    }
  }

  lemma AgreeStep(c: Config, s: Shard, ledger: map<nat, nat>, swept: nat, call: Call)
    requires Proper(c) && Agree(c, s.spent, ledger, swept) && swept <= call.now <= Horizon(c)
    ensures Decided(c, s, call).answer == Decide(c, Lookup(ledger, call.key), call.now).answer
    ensures Agree(c, Next(c, s, call).spent, LedgerNext(c, ledger, call),
                  if Sweeps(c, s, call) then call.now else swept)
  {
    SameDecision(c, s.spent, ledger, swept, call);
    var d := Decided(c, s, call);
    if d.answer.Allowed? {
      var spent, more := Inserted(s, call.key, d.stored.value), LedgerNext(c, ledger, call);
      assert more == ledger[call.key := d.stored.value];
      assert Agree(c, spent, more, swept);
      assert Agree(c, Kept(spent, call.now), more, call.now);
    }
  }

  /**
   Forgetting changes no answer, in 64-bit arithmetic or in unbounded: the sweeping shard answers every
   run as the ledger that never forgets.
   */
  lemma {:induction false} ForgettingChangesNoAnswer(c: Config, calls: seq<Call>)
    requires Proper(c) && ClockHolds(c, calls)
    ensures Replies(c, calls) == LedgerReplies(c, calls)
    ensures Agree(c, After(c, calls).spent, LedgerAfter(c, calls), LastSweep(c, calls))
  {
    if calls != [] {
      var before, call := Front(calls), Last(calls);
      ForgettingChangesNoAnswer(c, before);
      AgreeStep(c, After(c, before), LedgerAfter(c, before), LastSweep(c, before), call);
    }
  }

  /** A clock that never goes back, short of the horizon, is more than forgetting needs. */
  lemma {:induction false} MonotoneIsEnough(c: Config, calls: seq<Call>)
    requires Monotone(calls) && forall i :: 0 <= i < |calls| ==> calls[i].now <= Horizon(c)
    ensures ClockHolds(c, calls)
    ensures calls != [] ==> LastSweep(c, calls) <= Last(calls).now
  {
    if calls != [] {
      MonotoneIsEnough(c, Front(calls));
    }
  }

  lemma LedgerRepliesLast(c: Config, calls: seq<Call>, call: Call)
    ensures var r := LedgerReplies(c, calls + [call]);
      && r[..|calls|] == LedgerReplies(c, calls)
      && r[|calls|] == Decide(c, Lookup(LedgerAfter(c, calls), call.key), call.now).answer
    ensures LedgerAfter(c, calls + [call]) == LedgerNext(c, LedgerAfter(c, calls), call)
  {
    assert Front(calls + [call]) == calls && Last(calls + [call]) == call;
  }

  /**
   After any run in which forgetting has been harmless so far, the next call is decided as the ledger
   decides it, answer and entry alike, exactly when it is not one of a dropped key whose time is yet to
   come. The shard can only have dropped such a key at a sweep later than the call.
   */
  lemma ForgettingMattersIff(c: Config, calls: seq<Call>, call: Call)
    requires Proper(c) && ClockHolds(c, calls) && call.now <= Horizon(c)
    ensures var spent, ledger := After(c, calls).spent, LedgerAfter(c, calls);
      Decided(c, After(c, calls), call) == Decide(c, Lookup(ledger, call.key), call.now)
      <==> !(call.key !in spent && call.key in ledger && ledger[call.key] > call.now)
    ensures var spent, ledger := After(c, calls).spent, LedgerAfter(c, calls);
      call.key !in spent && call.key in ledger ==> ledger[call.key] <= LastSweep(c, calls)
  {
    ForgettingChangesNoAnswer(c, calls);
    var spent, ledger := After(c, calls).spent, LedgerAfter(c, calls);
    NoWrap(c, Lookup(spent, call.key), call.now);
    if call.key !in spent && call.key in ledger {
      ForgettingIsHarmlessIff(c, ledger[call.key], call.now);
    }
  }

  /** Sixty-four clients of one shard: the first at 1000, the others at 2000, when the last has it swept. */
  function Crowd(n: nat): (calls: seq<Call>)
    ensures |calls| == n
  {
    if n == 0 then [] else Crowd(n - 1) + [Call(n - 1, if n == 1 then 1000 else 2000)]
  }

  ghost predicate Crowded(spent: map<nat, nat>, n: nat) {
    && |spent| == n
    && (forall k :: k in spent ==> k < n)
    && (n > 0 ==> 0 in spent && spent[0] == 2000)
  }

  lemma {:induction false} CrowdFills(c: Config, n: nat)
    requires c == Config(1000, 1000) && n < SWEEP_FLOOR
    ensures Crowded(After(c, Crowd(n)).spent, n) && After(c, Crowd(n)).sweepAt == SWEEP_FLOOR
    ensures Crowded(LedgerAfter(c, Crowd(n)), n)
  {
    if n > 0 {
      CrowdFills(c, n - 1);
      assert Front(Crowd(n)) == Crowd(n - 1);
      CrowdGrows(c, n, After(c, Crowd(n - 1)), LedgerAfter(c, Crowd(n - 1)));
    }
  }

  lemma CrowdGrows(c: Config, n: nat, s: Shard, ledger: map<nat, nat>)
    requires c == Config(1000, 1000) && 1 <= n <= SWEEP_FLOOR && s.sweepAt == SWEEP_FLOOR
    requires Crowded(s.spent, n - 1) && Crowded(ledger, n - 1)
    ensures var call := Call(n - 1, if n == 1 then 1000 else 2000);
      && Crowded(LedgerNext(c, ledger, call), n)
      && (n < SWEEP_FLOOR ==> Crowded(Next(c, s, call).spent, n) && Next(c, s, call).sweepAt == SWEEP_FLOOR)
      && (n == SWEEP_FLOOR ==> Sweeps(c, s, call) && 0 !in Next(c, s, call).spent)
  {
    var next := if n == 1 then 2000 else 3000;
    InsertGrows(s, n - 1, next);
    InsertGrows(Shard(ledger, 0), n - 1, next);
  }

  /**
   Where a call may be earlier than its shard's last sweep, forgetting does change an answer: a limit of
   a million requests a second with a burst of one, a sweep at 2000 ns that drops the client admitted at
   1000, and that client again at 1200.
   */
  lemma ClockMustNotGoBack(c: Config)
    requires c == Config(1000, 1000)
    ensures RateLimit(MAX_COUNT, Second, Some(1)) == Some(Rate(1000, 1))
    ensures var calls := Crowd(SWEEP_FLOOR) + [Call(0, 1200)];
      && Proper(c) && ClockHolds(c, Front(calls)) && LastSweep(c, Front(calls)) == 2000
      && Replies(c, calls)[SWEEP_FLOOR] == Allowed
      && LedgerReplies(c, calls)[SWEEP_FLOOR] == Refused(800)
  {
    CrowdIsSwept(c, SWEEP_FLOOR);
    CrowdIsMonotone(SWEEP_FLOOR);
    MonotoneIsEnough(c, Crowd(SWEEP_FLOOR));
    var crowd := Crowd(SWEEP_FLOOR);
    AfterTheSweep(c, crowd, Call(0, 1200), After(c, crowd).spent, LedgerAfter(c, crowd));
  }

  lemma CrowdIsSwept(c: Config, n: nat)
    requires c == Config(1000, 1000) && n == SWEEP_FLOOR
    ensures 0 !in After(c, Crowd(n)).spent && LastSweep(c, Crowd(n)) == 2000
    ensures Lookup(LedgerAfter(c, Crowd(n)), 0) == Some(2000)
  {
    assert Front(Crowd(n)) == Crowd(n - 1) && Last(Crowd(n)) == Call(n - 1, 2000);
    CrowdFills(c, n - 1);
    CrowdGrows(c, n, After(c, Crowd(n - 1)), LedgerAfter(c, Crowd(n - 1)));
  }

  lemma AfterTheSweep(c: Config, calls: seq<Call>, call: Call, spent: map<nat, nat>, ledger: map<nat, nat>)
    requires c == Config(1000, 1000) && call == Call(0, 1200) && spent == After(c, calls).spent
      && ledger == LedgerAfter(c, calls)
    requires 0 !in spent && Lookup(ledger, 0) == Some(2000)
    ensures Front(calls + [call]) == calls
    ensures Replies(c, calls + [call])[|calls|] == Allowed
    ensures LedgerReplies(c, calls + [call])[|calls|] == Refused(800)
  {
    Answered(c, calls, call);
    LedgerRepliesLast(c, calls, call);
    StaleAnswers(c, spent, ledger);
  }

  lemma StaleAnswers(c: Config, spent: map<nat, nat>, ledger: map<nat, nat>)
    requires c == Config(1000, 1000) && 0 !in spent && Lookup(ledger, 0) == Some(2000)
    ensures DecideU64(c, Lookup(spent, 0), 1200).answer == Allowed
    ensures Decide(c, Lookup(ledger, 0), 1200).answer == Refused(800)
  {
  }

  lemma {:induction false} CrowdIsMonotone(n: nat)
    ensures Monotone(Crowd(n)) && forall i :: 0 <= i < n ==> Crowd(n)[i].now <= if i == 0 then 1000 else 2000
    ensures n > 0 ==> Crowd(n)[0].now == 1000 && forall i :: 1 <= i < n ==> Crowd(n)[i].now == 2000
  {
    if n > 0 {
      CrowdIsMonotone(n - 1);
    }
  }

  // ----- The bound on admissions -----

  /** How many calls of `key` at times in `[lo, hi]` were admitted. */
  function Admitted(calls: seq<Call>, replies: seq<Answer>, key: nat, lo: nat, hi: nat): nat
    requires |calls| == |replies|
  {
    if calls == [] then 0
    else
      Admitted(Front(calls), replies[..|calls| - 1], key, lo, hi)
      + if Last(calls).key == key && lo <= Last(calls).now <= hi && replies[|calls| - 1].Allowed? then 1 else 0
  }

  lemma WindowStep(c: Config, ledger: map<nat, nat>, call: Call, lo: nat, hi: nat, n: nat)
    requires Proper(c) && lo <= call.now <= hi
    requires n > 0 ==> call.key in ledger && ledger[call.key] >= lo + n * c.interval
    requires Decide(c, Lookup(ledger, call.key), call.now).answer.Allowed?
    ensures (n + 1) * c.interval <= c.tolerance + (hi - lo)
    ensures var after := LedgerNext(c, ledger, call); call.key in after && after[call.key] >= lo + (n + 1) * c.interval
  {
    assert (n + 1) * c.interval == n * c.interval + c.interval;
  }

  lemma LedgerGrows(c: Config, ledger: map<nat, nat>, call: Call, key: nat)
    ensures key in ledger ==> key in LedgerNext(c, ledger, call) && LedgerNext(c, ledger, call)[key] >= ledger[key]
  {
  }

  lemma {:induction false} LedgerWindow(c: Config, calls: seq<Call>, key: nat, lo: nat, hi: nat)
    requires Proper(c) && lo <= hi
    ensures var n := Admitted(calls, LedgerReplies(c, calls), key, lo, hi);
      && n * c.interval <= c.tolerance + (hi - lo)
      && (n > 0 ==> key in LedgerAfter(c, calls) && LedgerAfter(c, calls)[key] >= lo + n * c.interval)
  {
    if calls != [] {
      var before, call := Front(calls), Last(calls);
      LedgerWindow(c, before, key, lo, hi);
      var ledger, n := LedgerAfter(c, before), Admitted(before, LedgerReplies(c, before), key, lo, hi);
      LedgerRepliesLast(c, before, call);
      assert calls == before + [call];
      if call.key == key && lo <= call.now <= hi && Decide(c, Lookup(ledger, key), call.now).answer.Allowed? {
        WindowStep(c, ledger, call, lo, hi, n);
      } else {
        LedgerGrows(c, ledger, call, key);
      }
    }
  }

  /**
   In every window `[lo, hi]` one key is admitted at most `burst + (hi - lo) / interval` times, over
   every run of a shard's calls in which forgetting is harmless.
   */
  lemma WindowBound(c: Config, burst: nat, calls: seq<Call>, key: nat, lo: nat, hi: nat)
    requires Proper(c) && c.tolerance <= burst * c.interval && ClockHolds(c, calls) && lo <= hi
    ensures Admitted(calls, Replies(c, calls), key, lo, hi) <= burst + (hi - lo) / c.interval
  {
    ForgettingChangesNoAnswer(c, calls);
    LedgerWindow(c, calls, key, lo, hi);
    AtMost(Admitted(calls, Replies(c, calls), key, lo, hi), c.interval, burst, hi - lo);
  }

  lemma AtMost(n: nat, interval: nat, burst: nat, width: nat)
    requires interval >= 1 && n * interval <= burst * interval + width
    ensures n <= burst + width / interval
  {
    var q := width / interval;
    assert width < q * interval + interval;
    assert (burst + q + 1) * interval == burst * interval + q * interval + interval;
    if n >= burst + q + 1 {
      Times(n, burst + q + 1, interval);
    }
  }

  lemma Times(a: nat, b: nat, k: nat)
    requires a >= b
    ensures a * k >= b * k
  {
  }

  /** `burst` requests at once, then one each interval. */
  function Steady(key: nat, interval: nat, burst: nat, more: nat): (calls: seq<Call>)
    ensures |calls| == burst + more
    decreases burst + more
  {
    if more > 0 then Steady(key, interval, burst, more - 1) + [Call(key, more * interval)]
    else if burst > 0 then Steady(key, interval, burst - 1, 0) + [Call(key, 0)]
    else []
  }

  lemma SteadyStep(c: Config, stored: Option<nat>, burst: nat, more: nat)
    requires Proper(c) && burst >= 1 && burst * c.interval <= c.tolerance
    requires stored == if burst + more == 1 then None else Some((burst + more - 1) * c.interval)
    ensures Decide(c, stored, more * c.interval) == Decision(Allowed, Some((burst + more) * c.interval))
  {
    var n := burst + more - 1;
    assert (n + 1) * c.interval == n * c.interval + c.interval == burst * c.interval + more * c.interval;
    Times(n, more, c.interval);
  }

  /** That client is admitted every time. */
  lemma {:induction false} LedgerAdmitsSteady(c: Config, key: nat, burst: nat, more: nat, hi: nat)
    requires Proper(c) && burst * c.interval <= c.tolerance && (more > 0 ==> burst > 0) && more * c.interval <= hi
    ensures var calls := Steady(key, c.interval, burst, more);
      && Admitted(calls, LedgerReplies(c, calls), key, 0, hi) == burst + more
      && Lookup(LedgerAfter(c, calls), key) == if burst == 0 then None else Some((burst + more) * c.interval)
    decreases burst + more
  {
    if burst + more > 0 {
      var b, m := if more > 0 then burst else burst - 1, if more > 0 then more - 1 else 0;
      var before, call := Steady(key, c.interval, b, m), Call(key, more * c.interval);
      Times(burst, b, c.interval);
      Times(more, m, c.interval);
      LedgerAdmitsSteady(c, key, b, m, hi);
      OneMoreSteady(c, before, call, burst, more, hi);
    }
  }

  lemma OneMoreSteady(c: Config, before: seq<Call>, call: Call, burst: nat, more: nat, hi: nat)
    requires Proper(c) && burst >= 1 && burst * c.interval <= c.tolerance && call.now == more * c.interval <= hi
    requires Admitted(before, LedgerReplies(c, before), call.key, 0, hi) == burst + more - 1
    requires Lookup(LedgerAfter(c, before), call.key)
      == if burst + more == 1 then None else Some((burst + more - 1) * c.interval)
    ensures var calls := before + [call];
      && Admitted(calls, LedgerReplies(c, calls), call.key, 0, hi) == burst + more
      && Lookup(LedgerAfter(c, calls), call.key) == Some((burst + more) * c.interval)
  {
    SteadyStep(c, Lookup(LedgerAfter(c, before), call.key), burst, more);
    AdmitsOneMore(c, before, call, hi);
  }

  lemma AdmitsOneMore(c: Config, before: seq<Call>, call: Call, hi: nat)
    requires call.now <= hi && Decide(c, Lookup(LedgerAfter(c, before), call.key), call.now).answer.Allowed?
    ensures var calls := before + [call];
      && Admitted(calls, LedgerReplies(c, calls), call.key, 0, hi) ==
           Admitted(before, LedgerReplies(c, before), call.key, 0, hi) + 1
      && Lookup(LedgerAfter(c, calls), call.key) == Decide(c, Lookup(LedgerAfter(c, before), call.key), call.now).stored
  {
    LedgerRepliesLast(c, before, call);
    assert Front(before + [call]) == before;
  }

  lemma {:induction false} SteadyIsMonotone(key: nat, interval: nat, burst: nat, more: nat)
    ensures var calls := Steady(key, interval, burst, more);
      Monotone(calls) && forall i :: 0 <= i < |calls| ==> calls[i].now <= more * interval
    decreases burst + more
  {
    if more > 0 {
      SteadyIsMonotone(key, interval, burst, more - 1);
      Times(more, more - 1, interval);
    } else if burst > 0 {
      SteadyIsMonotone(key, interval, burst - 1, 0);
    }
  }

  /** The bound is reached, for every length of window. */
  lemma BoundIsReached(c: Config, key: nat, burst: nat, more: nat)
    requires Proper(c) && burst >= 1 && c.tolerance == burst * c.interval && more * c.interval <= Horizon(c)
    ensures var calls, hi := Steady(key, c.interval, burst, more), more * c.interval;
      ClockHolds(c, calls) && Admitted(calls, Replies(c, calls), key, 0, hi) == burst + hi / c.interval
  {
    var calls, hi := Steady(key, c.interval, burst, more), more * c.interval;
    SteadyIsMonotone(key, c.interval, burst, more);
    MonotoneIsEnough(c, calls);
    ForgettingChangesNoAnswer(c, calls);
    LedgerAdmitsSteady(c, key, burst, more, hi);
    Divides(more, c.interval);
  }

  lemma Divides(n: nat, k: nat)
    requires k >= 1
    ensures n * k / k == n
  {
    var q: nat := n * k / k;
    assert q * k <= n * k < q * k + k == (q + 1) * k;
    assert (n + 1) * k == n * k + k;
    Smaller(n, q + 1, k);
    Smaller(q, n + 1, k);
  }

  lemma Smaller(a: nat, b: nat, k: nat)
    requires a * k < b * k
    ensures a < b
  {
    if a >= b {
      Times(a, b, k);
    }
  }

  // ----- The rule is a token bucket -----

  /** `credit` nanoseconds of budget at time `at`; a request costs one interval. */
  datatype Bucket = Bucket(credit: nat, at: nat)

  /** Credit accrues at one nanosecond a nanosecond, to the brim and no further. */
  function Refilled(c: Config, b: Bucket, now: nat): nat {
    var credit := b.credit + Max(now - b.at, 0);
    if credit > c.tolerance then c.tolerance else credit
  }

  function Draw(c: Config, b: Bucket, now: nat): (Bucket, bool) {
    var credit := Refilled(c, b, now);
    if credit >= c.interval then (Bucket(credit - c.interval, now), true) else (Bucket(credit, now), false)
  }

  /** The bucket of `key`: it starts full, and each call of the key draws on it. */
  function BucketAfter(c: Config, calls: seq<Call>, key: nat): Bucket {
    if calls == [] then Bucket(c.tolerance, 0)
    else
      var b := BucketAfter(c, Front(calls), key);
      if Last(calls).key == key then Draw(c, b, Last(calls).now).0 else b
  }

  lemma DrawDecides(c: Config, stored: Option<nat>, b: Bucket, now: nat)
    requires Proper(c) && b.at <= now
    requires Stored(stored, 0) <= b.at + c.tolerance && b.credit == c.tolerance - Max(Stored(stored, 0) - b.at, 0)
    ensures var d, e := Decide(c, stored, now), Draw(c, b, now);
      && d.answer.Allowed? == e.1
      && Stored(d.stored, 0) <= now + c.tolerance
      && e.0.credit == c.tolerance - Max(Stored(d.stored, 0) - now, 0)
  {
  }

  /** The ledger is the set of buckets: after any run each key's credit is what its entry leaves. */
  lemma {:induction false} LedgerIsBuckets(c: Config, calls: seq<Call>, key: nat)
    requires Proper(c) && Monotone(calls)
    ensures var b, s := BucketAfter(c, calls, key), Stored(Lookup(LedgerAfter(c, calls), key), 0);
      && s <= b.at + c.tolerance && b.credit == c.tolerance - Max(s - b.at, 0)
      && b.at <= if calls == [] then 0 else Last(calls).now
  {
    if calls != [] {
      var before, call := Front(calls), Last(calls);
      LedgerIsBuckets(c, before, key);
      if call.key == key {
        DrawDecides(c, Lookup(LedgerAfter(c, before), key), BucketAfter(c, before, key), call.now);
      }
    }
  }

  /**
   `spend` is a token bucket refilled continuously, one per key: after any run of calls at non-decreasing
   times, the next call is admitted exactly when its key's bucket holds an interval of credit.
   */
  lemma SpendIsATokenBucket(c: Config, calls: seq<Call>, call: Call)
    requires Proper(c) && Monotone(calls + [call]) && call.now <= Horizon(c)
    ensures Replies(c, calls + [call])[|calls|].Allowed? <==> Draw(c, BucketAfter(c, calls, call.key), call.now).1
  {
    var all := calls + [call];
    assert Front(all) == calls && Last(all) == call && all[|calls|] == call;
    assert forall i :: 0 <= i < |calls| ==> calls[i] == all[i];
    MonotoneIsEnough(c, all);
    ForgettingChangesNoAnswer(c, all);
    LedgerIsBuckets(c, calls, call.key);
    DrawDecides(c, Lookup(LedgerAfter(c, calls), call.key), BucketAfter(c, calls, call.key), call.now);
  }

  // ----- A refusal's wait -----

  lemma WaitDecides(c: Config, stored: Option<nat>, now: nat, later: nat)
    requires Proper(c) && Decide(c, stored, now).answer.Refused? && now <= later
    ensures var wait := Decide(c, stored, now).answer.wait;
      wait > 0 && (Decide(c, stored, later).answer.Allowed? <==> later >= now + wait)
  {
  }

  lemma {:induction false} RefusalsKeepTheEntry(c: Config, calls: seq<Call>, more: seq<Call>, key: nat)
    requires forall i ::
      |calls| <= i < |calls + more| && (calls + more)[i].key == key ==> LedgerReplies(c, calls + more)[i].Refused?
    ensures Lookup(LedgerAfter(c, calls + more), key) == Lookup(LedgerAfter(c, calls), key)
  {
    if more == [] {
      assert calls + more == calls;
    } else {
      var all, less := calls + more, calls + Front(more);
      assert Front(all) == less && Last(all) == Last(more) == all[|all| - 1];
      assert LedgerReplies(c, all)[..|less|] == LedgerReplies(c, less);
      forall i | |calls| <= i < |less| && less[i].key == key
        ensures LedgerReplies(c, less)[i].Refused?
      {
        assert all[i] == less[i];
      }
      RefusalsKeepTheEntry(c, calls, Front(more), key);
    }
  }

  lemma {:induction false} LedgerRepliesExtend(c: Config, calls: seq<Call>, more: seq<Call>)
    ensures LedgerReplies(c, calls + more)[..|calls|] == LedgerReplies(c, calls)
  {
    if more == [] {
      assert calls + more == calls;
    } else {
      assert Front(calls + more) == calls + Front(more);
      LedgerRepliesExtend(c, calls, Front(more));
    }
  }

  /**
   The wait a refusal names is exact: whatever other calls come between, and however many sweeps, as
   long as none for the key is admitted, a retry is admitted from `now + wait` on and at no earlier
   instant.
   */
  lemma WaitIsExact(c: Config, calls: seq<Call>, refused: Call, more: seq<Call>, retry: Call)
    requires Proper(c) && refused.key == retry.key && refused.now <= retry.now
    requires var all := calls + [refused] + more + [retry];
      && ClockHolds(c, all)
      && Replies(c, all)[|calls|].Refused?
      && forall i :: |calls| < i < |calls| + 1 + |more| && all[i].key == retry.key ==> Replies(c, all)[i].Refused?
    ensures var all := calls + [refused] + more + [retry];
      Replies(c, all)[|all| - 1].Allowed? <==> retry.now >= refused.now + Replies(c, all)[|calls|].wait
  {
    var first, key := calls + [refused], retry.key;
    var middle := first + more;
    var all := middle + [retry];
    ForgettingChangesNoAnswer(c, all);
    assert Front(first) == calls && Last(first) == refused && Front(all) == middle && Last(all) == retry;
    LedgerRepliesExtend(c, first, more + [retry]);
    assert all == first + (more + [retry]);
    LedgerRepliesExtend(c, middle, [retry]);
    forall i | |first| <= i < |first + more| && (first + more)[i].key == key
      ensures LedgerReplies(c, first + more)[i].Refused?
    {
      assert all[i] == middle[i];
    }
    RefusalsKeepTheEntry(c, first, more, key);
    var stored := Lookup(LedgerAfter(c, calls), key);
    assert LedgerReplies(c, first)[|calls|] == Decide(c, stored, refused.now).answer;
    WaitDecides(c, stored, refused.now, retry.now);
  }

  /** The whole seconds of `Retry-After`. */
  function RetryAfter(wait: nat): nat {
    var seconds := (wait + NANOS - 1) / NANOS;
    if seconds < 1 then 1 else seconds
  }

  /** Rounded to whole seconds the wait still suffices, and no shorter whole number of seconds, save zero, would. */
  lemma RetryAfterSuffices(wait: nat, seconds: nat)
    ensures seconds >= 1 ==> (seconds * NANOS >= wait <==> seconds >= RetryAfter(wait))
  {
  }

  // ----- What sweeping costs -----

  /** Entries looked at by every sweep of the run. */
  function Visited(c: Config, calls: seq<Call>): nat {
    if calls == [] then 0
    else
      var s, call := After(c, Front(calls)), Last(calls);
      Visited(c, Front(calls))
      + if Sweeps(c, s, call) then |Inserted(s, call.key, Decided(c, s, call).stored.value)| else 0
  }

  /** Inserts of a key the shard did not hold. */
  function FreshInserts(c: Config, calls: seq<Call>): nat {
    if calls == [] then 0
    else
      var s, call := After(c, Front(calls)), Last(calls);
      FreshInserts(c, Front(calls)) + if call.key !in s.spent && Decided(c, s, call).answer.Allowed? then 1 else 0
  }

  lemma InsertGrows(s: Shard, key: nat, next: nat)
    ensures |Inserted(s, key, next)| == |s.spent| + if key in s.spent then 0 else 1
  {
    var m := Inserted(s, key, next);
    assert m.Keys == s.spent.Keys + {key};
    assert |m| == |m.Keys| && |s.spent| == |s.spent.Keys|;
  }

  /**
   After every run a shard is below the size that triggers a sweep, and all its sweeps together have
   looked at no more than twice as many entries as were ever inserted: what is still owed is the
   potential `2 * size - sweepAt`.
   */
  lemma {:induction false} SweepsArePaidFor(c: Config, calls: seq<Call>)
    ensures var s := After(c, calls);
      && |s.spent| < s.sweepAt && SWEEP_FLOOR <= s.sweepAt
      && Visited(c, calls) + Max(2 * |s.spent| - s.sweepAt, 0) <= 2 * FreshInserts(c, calls)
  {
    if calls != [] {
      SweepsArePaidFor(c, Front(calls));
      var s, call := After(c, Front(calls)), Last(calls);
      var d := Decided(c, s, call);
      if d.answer.Allowed? {
        InsertGrows(s, call.key, d.stored.value);
        if Sweeps(c, s, call) {
          assert |Next(c, s, call).spent| * 2 <= Next(c, s, call).sweepAt;
        }
      }
    }
  }
}

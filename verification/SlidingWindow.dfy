/**
 * The per-isolate hourly limiter of web/proxy/worker.js.
 *
 * `retryAfterSec` is the delay-seconds of a `Retry-After` header (section 10.2.3 of RFC 9110).  It
 * is `None` where the program computes `NaN`: a refusal with nothing in the log.
 */
module SlidingWindow {
  import opened Prelude

  datatype Slot = Granted | Refused(retryAfterSec: Option<int>)

  /** `Math.ceil(ms / 1000)`. */
  function CeilSeconds(ms: int): int {
    -((-ms) / 1000)
  }

  function RetryAfter(oldest: int, now: int): int {
    var sec := CeilSeconds(oldest + HOUR_MS - now);
    if sec < 1 then 1 else sec
  }

  /** The queue without its leading expired requests. */
  function Pruned(log: seq<int>, now: int): seq<int> {
    if log != [] && log[0] <= now - HOUR_MS then Pruned(log[1..], now) else log
  }

  function Reserve(log: seq<int>, now: int, cap: nat): (seq<int>, Slot) {
    var kept := Pruned(log, now);
    if |kept| >= cap then (kept, Refused(if kept == [] then None else Some(RetryAfter(kept[0], now))))
    else (kept + [now], Granted)
  }

  class Limiter {
    var log: seq<int>

    constructor ()
      ensures log == []
    {
      log := [];
    }

    method ReserveTiingoSlot(now: int, cap: nat) returns (slot: Slot)
      modifies this
      ensures (log, slot) == Reserve(old(log), now, cap)
    {
      var cutoff := now - HOUR_MS;
      while |log| > 0 && log[0] <= cutoff
        invariant Pruned(log, now) == Pruned(old(log), now)
        decreases |log|
      {
        log := log[1..];
      }
      if |log| >= cap {
        if |log| == 0 { return Refused(None); }
        var retryAfterMs := log[0] + HOUR_MS - now;
        var sec := CeilSeconds(retryAfterMs);
        return Refused(Some(if sec < 1 then 1 else sec));
      }
      log := log + [now];
      slot := Granted;
    }
  }

  /** `hourlyReserve`: the configured cap, rounded down, if it is positive at all. */
  function HourlyReserve(raw: Option<real>): nat {
    if raw.Some? && raw.value > 0.0 then raw.value.Floor else 40
  }

  /** The resolved cap is usable, at least one, unless the configured value is a proper fraction. */
  lemma ReserveIsUsable(raw: Option<real>)
    ensures HourlyReserve(raw) >= 1 <==> !(raw.Some? && 0.0 < raw.value < 1.0)
  {}

  /** It is the configured value rounded down, and forty if none is configured, or none that is positive. */
  lemma {:induction false} ReserveMeans(raw: Option<real>)
    ensures var cap := HourlyReserve(raw);
      if raw.Some? && raw.value > 0.0 then cap as real <= raw.value < cap as real + 1.0 else cap == 40
  {}

  // ---------------------------------------------------------------- whole runs

  /** Calls at the given times: the queue, every grant so far, and the last answer. */
  datatype Trace = Trace(log: seq<int>, grants: seq<int>, slot: Slot)

  function Called(t: Trace, now: int, cap: nat): Trace {
    var (log, slot) := Reserve(t.log, now, cap);
    Trace(log, if slot.Granted? then t.grants + [now] else t.grants, slot)
  }

  function Run(times: seq<int>, cap: nat): Trace {
    if times == [] then Trace([], [], Granted)
    else Called(Run(times[..|times| - 1], cap), times[|times| - 1], cap)
  }

  ghost predicate Sorted(s: seq<int>) {
    forall i, j :: 0 <= i <= j < |s| ==> s[i] <= s[j]
  }

  /** The grants that the queue still holds after a call at `now`: all but the first `expired`. */
  ghost predicate Recent(t: Trace, now: int, cap: nat, expired: nat) {
    && expired <= |t.grants| && t.log == t.grants[expired..]
    && Sorted(t.grants)
    && (forall i :: 0 <= i < |t.grants| ==> t.grants[i] <= now)
    && (forall i :: 0 <= i < |t.grants| ==> (i < expired <==> t.grants[i] <= now - HOUR_MS))
    && (cap >= 1 ==> |t.log| <= cap)
  }

  lemma {:induction false} PruneExpired(log: seq<int>, now: int) returns (k: nat)
    requires Sorted(log)
    ensures k <= |log| && Pruned(log, now) == log[k..]
    ensures forall i :: 0 <= i < |log| ==> (i < k <==> log[i] <= now - HOUR_MS)
  {
    if log != [] && log[0] <= now - HOUR_MS {
      var rest := log[1..];
      k := PruneExpired(rest, now);
      assert forall i :: 1 <= i < |log| ==> log[i] == rest[i - 1];
      assert log[k + 1..] == rest[k..];
      k := k + 1;
    } else {
      k := 0;
    }
  }

  lemma PruneKeepsRecent(t: Trace, before: int, expired: nat, now: int, cap: nat) returns (expired': nat)
    requires Recent(t, before, cap, expired) && before <= now
    ensures Recent(t.(log := Pruned(t.log, now)), now, cap, expired')
  {
    assert forall i :: 0 <= i < |t.log| ==> t.log[i] == t.grants[expired + i];
    var k := PruneExpired(t.log, now);
    expired' := expired + k;
    forall i | 0 <= i < |t.grants| ensures i < expired' <==> t.grants[i] <= now - HOUR_MS {
      if i >= expired { assert t.grants[i] == t.log[i - expired]; }
    }
  }

  lemma CallKeepsRecent(t: Trace, before: int, expired: nat, now: int, cap: nat) returns (expired': nat)
    requires Recent(t, before, cap, expired) && before <= now
    ensures Recent(Called(t, now, cap), now, cap, expired')
  {
    expired' := PruneKeepsRecent(t, before, expired, now, cap);
    if Called(t, now, cap).slot.Granted? {
      assert (t.grants + [now])[expired'..] == t.grants[expired'..] + [now];
    }
  }

  lemma {:induction false} RunIsRecent(times: seq<int>, cap: nat) returns (expired: nat)
    requires times != [] && Sorted(times)
    ensures Recent(Run(times, cap), times[|times| - 1], cap, expired)
  {
    var front, now := times[..|times| - 1], times[|times| - 1];
    if front == [] {
      expired := CallKeepsRecent(Run([], cap), now, 0, now, cap);
    } else {
      expired := RunIsRecent(front, cap);
      expired := CallKeepsRecent(Run(front, cap), front[|front| - 1], expired, now, cap);
    }
  }

  /** The queue is the grants of the last hour, in order. */
  lemma QueueIsRecentGrants(times: seq<int>, cap: nat)
    requires times != [] && Sorted(times)
    ensures Run(times, cap).log == GrantsSince(Run(times, cap).grants, times[|times| - 1] - HOUR_MS)
  {
    var k := RunIsRecent(times, cap);
    SuffixIsSince(Run(times, cap).grants, times[|times| - 1] - HOUR_MS, k);
  }

  /** The grants after `cutoff`. */
  function GrantsSince(grants: seq<int>, cutoff: int): seq<int> {
    if grants == [] then []
    else (if grants[0] > cutoff then [grants[0]] else []) + GrantsSince(grants[1..], cutoff)
  }

  lemma {:induction false} SuffixIsSince(grants: seq<int>, cutoff: int, k: nat)
    requires k <= |grants| && forall i :: 0 <= i < |grants| ==> (i < k <==> grants[i] <= cutoff)
    ensures GrantsSince(grants, cutoff) == grants[k..]
  {
    if grants != [] {
      var rest := grants[1..];
      assert forall i :: 0 <= i < |rest| ==> rest[i] == grants[i + 1];
      if k > 0 {
        SuffixIsSince(rest, cutoff, k - 1);
        assert rest[k - 1..] == grants[k..];
      } else {
        SuffixIsSince(rest, cutoff, 0);
        assert [grants[0]] + rest == grants;
      }
    }
  }

  /** Every grant is later than the one granted `cap` grants before it by at least an hour. */
  ghost predicate CapSpaced(grants: seq<int>, cap: nat) {
    forall i, j :: 0 <= i && i + cap <= j < |grants| ==> grants[j] - grants[i] >= HOUR_MS
  }

  lemma {:induction false} GrantsAreSpaced(times: seq<int>, cap: nat)
    requires Sorted(times) && cap >= 1
    ensures CapSpaced(Run(times, cap).grants, cap)
  {
    if times != [] {
      var front, now := times[..|times| - 1], times[|times| - 1];
      GrantsAreSpaced(front, cap);
      var t, t' := Run(front, cap), Run(times, cap);
      var k := RunIsRecent(times, cap);
      if t'.slot.Granted? {
        assert t'.grants == t.grants + [now];
        forall i, j | 0 <= i && i + cap <= j < |t'.grants| ensures t'.grants[j] - t'.grants[i] >= HOUR_MS {
          if j == |t.grants| {
            assert |t'.log| <= cap && i < k;
          }
        }
      }
    }
  }

  function GrantsIn(grants: seq<int>, t: int): set<nat> {
    set i: nat | i < |grants| && t - HOUR_MS < grants[i] <= t
  }

  function Range(lo: nat, n: nat): (r: set<nat>)
    ensures forall i :: i in r <==> lo <= i < lo + n
    ensures |r| == n
  {
    if n == 0 then {} else Range(lo, n - 1) + {lo + n - 1}
  }

  lemma WithinAnHour(grants: seq<int>, cap: nat, i: nat, j: nat)
    requires CapSpaced(grants, cap) && i < |grants| && j < |grants| && grants[j] - grants[i] < HOUR_MS
    ensures j < i + cap
  {}

  /** In every run, every trailing-hour window, wherever it ends, holds at most `cap` grants. */
  lemma AtMostCapPerHour(times: seq<int>, cap: nat, t: int)
    requires Sorted(times) && cap >= 1
    ensures |GrantsIn(Run(times, cap).grants, t)| <= cap
  {
    var grants := Run(times, cap).grants;
    var inside := GrantsIn(grants, t);
    GrantsAreSpaced(times, cap);
    if inside != {} {
      var m := Least(inside);
      forall i | i in inside ensures i in Range(m, cap) {
        WithinAnHour(grants, cap, m, i);
      }
      SubsetSize(inside, Range(m, cap));
    }
  }

  // ---------------------------------------------------------------- Retry-After

  lemma CeilSecondsBounds(ms: int)
    ensures 1000 * (CeilSeconds(ms) - 1) < ms <= 1000 * CeilSeconds(ms)
  {}

  lemma {:induction false} RunSnoc(times: seq<int>, now: int, cap: nat)
    ensures Run(times + [now], cap) == Called(Run(times, cap), now, cap)
  {
    assert (times + [now])[..|times|] == times;
  }

  /** A refused call leaves a full queue whose oldest grant is still in its hour. */
  lemma RefusalMeansFull(times: seq<int>, cap: nat)
    requires times != [] && Sorted(times) && cap >= 1 && Run(times, cap).slot.Refused?
    ensures var t, now := Run(times, cap), times[|times| - 1];
      && |t.log| == cap && t.log[0] > now - HOUR_MS && t.log[0] <= now && Sorted(t.log)
      && t.slot == Refused(Some(RetryAfter(t.log[0], now)))
  {
    var k := RunIsRecent(times, cap);
    var t, now := Run(times, cap), times[|times| - 1];
    assert forall i :: 0 <= i < |t.log| ==> t.log[i] == t.grants[k + i];
  }

  /** Until the oldest grant expires, every further call is refused and the queue does not change. */
  lemma {:induction false} RefusedUntilExpiry(times: seq<int>, later: seq<int>, cap: nat)
    requires times != [] && Sorted(times + later) && cap >= 1 && Run(times, cap).slot.Refused?
    requires forall i :: 0 <= i < |later| ==> later[i] < Run(times, cap).log[0] + HOUR_MS
    ensures Run(times + later, cap).slot.Refused? && Run(times + later, cap).log == Run(times, cap).log
  {
    SortedPrefix(times, later);
    RefusalMeansFull(times, cap);
    if later == [] {
      assert times + later == times;
    } else {
      var front, now := later[..|later| - 1], later[|later| - 1];
      assert times + later == times + front + [now];
      SortedPrefix(times + front, [now]);
      RefusedUntilExpiry(times, front, cap);
      RunSnoc(times + front, now, cap);
    }
  }

  lemma SortedPrefix(a: seq<int>, b: seq<int>)
    requires Sorted(a + b)
    ensures Sorted(a)
  {
    assert forall i :: 0 <= i < |a| ==> a[i] == (a + b)[i];
  }

  /**
   * What a refusal with `Retry-After: r` means.  Calls before the oldest grant expires are refused,
   * the first call after that is granted, and the header is right: waiting `r` seconds is enough, and
   * one second less is not, unless the wait is the minimum of one second.
   */
  lemma RetryAfterIsRight(times: seq<int>, later: seq<int>, next: int, cap: nat)
    requires times != [] && Sorted(times + later + [next]) && cap >= 1 && Run(times, cap).slot.Refused?
    requires forall i :: 0 <= i < |later| ==> later[i] < Run(times, cap).log[0] + HOUR_MS
    ensures var t, now := Run(times, cap), times[|times| - 1];
      var r := t.slot.retryAfterSec;
      && r.Some? && r.value >= 1
      && (Run(times + later + [next], cap).slot.Granted? <==> next >= t.log[0] + HOUR_MS)
      && (next >= now + 1000 * r.value ==> Run(times + later + [next], cap).slot.Granted?)
      && (r.value > 1 && next <= now + 1000 * (r.value - 1) ==> Run(times + later + [next], cap).slot.Refused?)
  {
    var t, now := Run(times, cap), times[|times| - 1];
    SortedPrefix(times + later, [next]);
    SortedPrefix(times, later);
    RefusalMeansFull(times, cap);
    RefusedUntilExpiry(times, later, cap);
    RunSnoc(times + later, next, cap);
    CeilSecondsBounds(t.log[0] + HOUR_MS - now);
    PrunedShrinks(t.log, next);
  }

  lemma PrunedShrinks(log: seq<int>, now: int)
    requires log != []
    ensures log[0] <= now - HOUR_MS <==> |Pruned(log, now)| < |log|
    ensures log[0] > now - HOUR_MS ==> Pruned(log, now) == log
  {
    PrunedNoLonger(log[1..], now);
  }

  lemma {:induction false} PrunedNoLonger(log: seq<int>, now: int)
    ensures |Pruned(log, now)| <= |log|
  {
    if log != [] { PrunedNoLonger(log[1..], now); }
  }

  /** In every run, a call is granted if and only if fewer than `cap` grants fell in the hour up to it. */
  lemma GrantedExactlyWhenRoom(times: seq<int>, next: int, cap: nat)
    requires Sorted(times + [next])
    ensures Run(times + [next], cap).slot.Granted? <==> |GrantsSince(Run(times, cap).grants, next - HOUR_MS)| < cap
  {
    RunSnoc(times, next, cap);
    SortedPrefix(times, [next]);
    if times == [] {
      assert Run(times, cap) == Trace([], [], Granted);
    } else {
      var t, last := Run(times, cap), times[|times| - 1];
      assert (times + [next])[|times| - 1] == last && (times + [next])[|times|] == next;
      var expired := RunIsRecent(times, cap);
      var k := PruneKeepsRecent(t, last, expired, next, cap);
      SuffixIsSince(t.grants, next - HOUR_MS, k);
    }
  }

  /**
   * The promise is only to the next caller: between the expiry and the full second of the header
   * another call may take the slot, and a call that waited as told is then refused.
   */
  lemma WaitingMayNotBeEnough()
    ensures Run([0, 1], 1).slot == Refused(Some(3600))
    ensures HOUR_MS + 1 == 1 + 1000 * 3600 && Run([0, 1, HOUR_MS, HOUR_MS + 1], 1).slot.Refused?
  {
    RunSnoc([], 0, 1);
    RunSnoc([0], 1, 1);
    RunSnoc([0, 1], HOUR_MS, 1);
    RunSnoc([0, 1, HOUR_MS], HOUR_MS + 1, 1);
    assert [] + [0] == [0] && [0] + [1] == [0, 1] && [0, 1] + [HOUR_MS] == [0, 1, HOUR_MS];
    assert [0, 1, HOUR_MS] + [HOUR_MS + 1] == [0, 1, HOUR_MS, HOUR_MS + 1];
    assert Run([0], 1) == Trace([0], [0], Granted);
    assert Pruned([0], 1) == [0] && CeilSeconds(HOUR_MS - 1) == 3600;
    assert Pruned([0], HOUR_MS) == [] by { assert [0][1..] == []; }
    assert Run([0, 1, HOUR_MS], 1).log == [HOUR_MS];
  }
}

/**
 * When the figures read off the credit ledger may go below zero, and how far a clock that runs
 * backwards may go wrong.
 */
module CreditFigures {
  import opened Prelude
  import opened CreditLedger

  // ---------------------------------------------------------------- what a window carries in

  /** The sum of the entries before `from`: the balance a window that starts there carries in. */
  function CarriedIn(log: Log, from: int): int {
    if log == [] then 0
    else CarriedIn(log[..|log| - 1], from) + if log[|log| - 1].at < from then log[|log| - 1].n else 0
  }

  function SpentFrom(log: Log, from: int): nat {
    if log == [] then 0
    else
      var last := log[|log| - 1];
      SpentFrom(log[..|log| - 1], from) + if last.at >= from && last.n > 0 then last.n else 0
  }

  function RefundedFrom(log: Log, from: int): nat {
    if log == [] then 0
    else
      var last := log[|log| - 1];
      RefundedFrom(log[..|log| - 1], from) + if last.at >= from && last.n < 0 then -last.n else 0
  }

  lemma {:induction false} WindowSplits(log: Log, from: int)
    ensures SumFrom(log, from) == Total(log) - CarriedIn(log, from)
    ensures SumFrom(log, from) == SpentFrom(log, from) - RefundedFrom(log, from)
  {
    if log != [] { WindowSplits(log[..|log| - 1], from); }
  }

  /** On a log in order of time, what is carried in is the sum of a prefix. */
  lemma {:induction false} CarriedIsPrefix(log: Log, from: int) returns (k: nat)
    requires InOrder(log)
    ensures k <= |log| && CarriedIn(log, from) == Total(log[..k])
    ensures k < |log| ==> log[|log| - 1].at >= from
  {
    if log == [] {
      k := 0;
    } else if log[|log| - 1].at >= from {
      k := CarriedIsPrefix(log[..|log| - 1], from);
      assert log[..|log| - 1][..k] == log[..k];
    } else {
      k := CarriedIsPrefix(log[..|log| - 1], from);
      if k < |log| - 1 { assert log[|log| - 2].at <= log[|log| - 1].at; }
      WholeSlice(log);
      WholeSlice(log[..|log| - 1]);
      k := |log|;
    }
  }

  /**
   * In every run on a clock that never runs backwards, the refunds in a window never exceed the spends
   * in it by more than the window carried in, which is never negative.  So a window that carries nothing
   * in never shows a negative figure.
   */
  lemma RefundsAreCarriedIn(ops: seq<Op>, from: int)
    requires Clocked(ops)
    ensures var full := Run(ops).1;
      && CarriedIn(full, from) >= 0
      && RefundedFrom(full, from) <= SpentFrom(full, from) + CarriedIn(full, from)
      && SumFrom(full, from) == SpentFrom(full, from) - RefundedFrom(full, from) >= -CarriedIn(full, from)
  {
    var full := Run(ops).1;
    var dropped := RunKeepsSuffix(ops);
    var k := CarriedIsPrefix(full, from);
    WindowSplits(full, from);
    WholeSlice(full);
    assert Total(full[..k]) >= 0 && Total(full[..|full|]) >= 0;
  }

  /** Where the hour and the day of an instant begin: at a full one, no later than it and less than one before it. */
  lemma {:induction false} WindowsBegin(now: int)
    ensures StartOfHour(now) % 3_600_000 == 0 && StartOfHour(now) <= now < StartOfHour(now) + 3_600_000
    ensures StartOfUtcDay(now) % 86_400_000 == 0 && StartOfUtcDay(now) <= now < StartOfUtcDay(now) + 86_400_000
  {
    HourIsFull(now / 3_600_000);
    DayIsFull(now / 86_400_000);
  }

  lemma {:induction false} HourIsFull(n: int)
    ensures n * 3_600_000 % 3_600_000 == 0
  {}

  lemma {:induction false} DayIsFull(n: int)
    ensures n * 86_400_000 % 86_400_000 == 0
  {}

  /** The same of the figures as shown, which are read off the pruned log. */
  lemma FiguresStayAbove(ops: seq<Op>, now: int, windowMs: int)
    requires Clocked(ops) && windowMs <= DAY_MS && forall k :: 0 <= k < |ops| ==> ops[k].now <= now
    ensures var (stored, full) := Run(ops);
      var shown := ReadCreditLog(stored, now, DAY_MS);
      && CreditsSpentToday(shown, now) >= -CarriedIn(full, StartOfUtcDay(now))
      && CreditsSpentThisHour(shown, now) >= -CarriedIn(full, StartOfHour(now))
      && CreditsSpentWithin(shown, now, windowMs) >= -CarriedIn(full, now - windowMs + 1)
  {
    BudgetsSurvivePruning(ops, now, windowMs);
    WithinIsSumFrom(Run(ops).1, now, windowMs);
    RefundsAreCarriedIn(ops, StartOfUtcDay(now));
    RefundsAreCarriedIn(ops, StartOfHour(now));
    RefundsAreCarriedIn(ops, now - windowMs + 1);
  }

  // ---------------------------------------------------------------- which refunds go below zero

  /** What a release at `now` gets to see. */
  function Kept(ops: seq<Op>, now: int): Log { ReadCreditLog(Run(ops).0, now, DAY_MS) }

  function RefundOf(kept: Log, n: int): nat {
    if n <= 0 then 0 else if n < OutstandingCredits(kept) then n else OutstandingCredits(kept)
  }

  lemma ReleaseFigure(ops: seq<Op>, n: int, now: int, from: int)
    requires from <= now
    ensures var full, full' := Run(ops).1, Run(ops + [Release(n, now)]).1;
      && SumFrom(full', from) == SumFrom(full, from) - RefundOf(Kept(ops, now), n)
      && Total(full') == Total(full) - RefundOf(Kept(ops, now), n)
  {
    var full, e := Run(ops).1, Entry(Kept(ops, now), Release(n, now));
    RunSnoc(ops, Release(n, now));
    if e.Some? { assert (full + [e.value])[..|full|] == full; }
  }

  lemma KeptSplits(ops: seq<Op>, now: int, from: int)
    requires from > now - DAY_MS && forall k :: 0 <= k < |ops| ==> ops[k].now <= now
    ensures Total(Kept(ops, now)) == CarriedIn(Kept(ops, now), from) + SumFrom(Run(ops).1, from)
  {
    PruningIsInvisible(ops, now, DAY_MS);
    SumNeedsOnlyRecent(Run(ops).1, now, DAY_MS, from);
    WindowSplits(Kept(ops, now), from);
  }

  /**
   * A figure that is not negative yet can be refunded below zero if and only if the entries that
   * pruning has kept carry something into the window: exactly then some refund takes back more than
   * was spent in it.
   */
  lemma WindowedSumsCanBeNegative(ops: seq<Op>, now: int, from: int)
    requires now - DAY_MS < from <= now && forall k :: 0 <= k < |ops| ==> ops[k].now <= now
    requires SumFrom(Run(ops).1, from) >= 0
    ensures (exists n :: SumFrom(Run(ops + [Release(n, now)]).1, from) < 0) <==> CarriedIn(Kept(ops, now), from) > 0
  {
    KeptSplits(ops, now, from);
    var all := OutstandingCredits(Kept(ops, now));
    forall n ensures SumFrom(Run(ops + [Release(n, now)]).1, from) >= SumFrom(Run(ops).1, from) - all {
      ReleaseFigure(ops, n, now, from);
    }
    ReleaseFigure(ops, all, now, from);
  }

  // ---------------------------------------------------------------- which clocks are safe

  /** Pruning has not dropped more refunds than spends, as far as a release at `now` could exploit it. */
  predicate Covered(ops: seq<Op>, now: int) {
    Total(Kept(ops, now)) <= Total(Run(ops).1) || Total(Kept(ops, now)) <= 0
  }

  lemma ReleaseKeepsBalance(ops: seq<Op>, n: int, now: int)
    requires NeverOverRefunded(Run(ops).1)
    ensures NeverOverRefunded(Run(ops + [Release(n, now)]).1) <==> RefundOf(Kept(ops, now), n) <= Total(Run(ops).1)
  {
    var full, e := Run(ops).1, Entry(Kept(ops, now), Release(n, now));
    WholeSlice(full);
    assert Total(full[..|full|]) >= 0;
    RunSnoc(ops, Release(n, now));
    if e.Some? {
      if Total(full) + e.value.n >= 0 { AppendKeepsBalance(full, e.value); } else { TotalBelowZero(full, e.value); }
    }
  }

  lemma TotalBelowZero(log: Log, e: CreditSpend)
    requires Total(log) + e.n < 0
    ensures !NeverOverRefunded(log + [e])
  {
    var full := log + [e];
    assert full[..|full| - 1] == log && full[..|full|] == full;
  }

  /** On any clock: no release at `now` refunds more than was ever spent if and only if the run is covered then. */
  lemma SafeExactlyWhenCovered(ops: seq<Op>, now: int)
    requires NeverOverRefunded(Run(ops).1)
    ensures (forall n :: NeverOverRefunded(Run(ops + [Release(n, now)]).1)) <==> Covered(ops, now)
  {
    var full := Run(ops).1;
    WholeSlice(full);
    assert Total(full[..|full|]) >= 0;
    forall n ensures NeverOverRefunded(Run(ops + [Release(n, now)]).1) <==> RefundOf(Kept(ops, now), n) <= Total(full) {
      ReleaseKeepsBalance(ops, n, now);
    }
    ReleaseKeepsBalance(ops, Total(Kept(ops, now)), now);
  }

  /** So a run on any clock is safe throughout if it is covered at each of its releases. */
  lemma {:induction false} CoveredRunsAreSafe(ops: seq<Op>)
    requires forall k :: 0 <= k < |ops| && ops[k].Release? ==> Covered(ops[..k], ops[k].now)
    ensures NeverOverRefunded(Run(ops).1)
  {
    if ops != [] {
      var front, op := ops[..|ops| - 1], ops[|ops| - 1];
      forall k | 0 <= k < |front| && front[k].Release? ensures Covered(front[..k], front[k].now) {
        assert front[..k] == ops[..k];
      }
      CoveredRunsAreSafe(front);
      WholeIsSnoc(ops);
      if op.Release? { SafeExactlyWhenCovered(front, op.now); } else { SpendIsSafe(front, op); }
    }
  }

  lemma SpendIsSafe(ops: seq<Op>, op: Op)
    requires op.Record? && NeverOverRefunded(Run(ops).1)
    ensures NeverOverRefunded(Run(ops + [op]).1)
  {
    var full := Run(ops).1;
    WholeSlice(full);
    assert Total(full[..|full|]) >= 0;
    RunSnoc(ops, op);
    if op.n > 0 { AppendKeepsBalance(full, CreditSpend(op.now, op.n)); }
  }

  /** A clock that never runs backwards covers every release. */
  lemma ClockedIsCovered(ops: seq<Op>, now: int)
    requires Clocked(ops) && forall k :: 0 <= k < |ops| ==> ops[k].now <= now
    ensures Covered(ops, now)
  {
    var dropped := RunKeepsSuffix(ops);
    SuffixIsCovered(Run(ops).0, Run(ops).1, dropped, now);
  }

  lemma SuffixIsCovered(stored: Log, full: Log, dropped: nat, now: int)
    requires Suffix(stored, full, dropped) && NeverOverRefunded(full)
    ensures Total(ReadCreditLog(stored, now, DAY_MS)) <= Total(full)
  {
    var k := PruneSuffix(stored, full, dropped, now);
    TotalSplit(full, dropped + k);
    assert Total(full[..dropped + k]) >= 0;
  }
}

/**
 * Which clocks let the credit ledger refund the same credits twice: a condition on the kinds and times
 * of the operations alone, whatever their amounts.
 */
module CreditClocks {
  import opened Prelude
  import opened CreditLedger
  import opened CreditFigures

  /** No refund is stamped before a spend that was recorded ahead of it. */
  ghost predicate InStep(ops: seq<Op>) {
    forall i, j :: 0 <= i < j < |ops| && ops[i].Record? && ops[j].Release? ==> ops[i].now <= ops[j].now
  }

  // ---------------------------------------------------------------- what pruning has dropped

  /** The entries of a log that a mask keeps. */
  function Pick(log: Log, mask: seq<bool>): Log
    requires |log| == |mask|
  {
    if log == [] then []
    else
      var n := |log| - 1;
      if mask[n] then Pick(log[..n], mask[..n]) + [log[n]] else Pick(log[..n], mask[..n])
  }

  function Dropped(log: Log, mask: seq<bool>): int
    requires |log| == |mask|
  {
    if log == [] then 0
    else
      var n := |log| - 1;
      Dropped(log[..n], mask[..n]) + if mask[n] then 0 else log[n].n
  }

  lemma {:induction false} PickTotal(log: Log, mask: seq<bool>)
    requires |log| == |mask|
    ensures Total(log) == Total(Pick(log, mask)) + Dropped(log, mask)
  {
    if log != [] {
      var n := |log| - 1;
      PickTotal(log[..n], mask[..n]);
      var kept := Pick(log[..n], mask[..n]);
      assert (kept + [log[n]])[..|kept|] == kept;
    }
  }

  /** Reading a picked log keeps of it what is recent. */
  function Recent(log: Log, mask: seq<bool>, now: int): (r: seq<bool>)
    requires |log| == |mask|
    ensures |r| == |mask|
  {
    seq(|mask|, i requires 0 <= i < |mask| => mask[i] && now - log[i].at < DAY_MS)
  }

  lemma {:induction false} ReadPicked(log: Log, mask: seq<bool>, now: int)
    requires |log| == |mask|
    ensures ReadCreditLog(Pick(log, mask), now, DAY_MS) == Pick(log, Recent(log, mask, now))
  {
    if log != [] {
      var n := |log| - 1;
      ReadPicked(log[..n], mask[..n], now);
      assert Recent(log, mask, now)[..n] == Recent(log[..n], mask[..n], now);
      if mask[n] { ReadAppend(Pick(log[..n], mask[..n]), log[n], now, DAY_MS); }
    }
  }

  /** Whoever keeps a spend keeps every refund written after it. */
  ghost predicate Closed(log: Log, mask: seq<bool>)
    requires |log| == |mask|
  {
    forall i, j :: 0 <= i < j < |log| && log[i].n > 0 && log[j].n < 0 && mask[i] ==> mask[j]
  }

  lemma {:induction false} NoSpendKept(log: Log, mask: seq<bool>)
    requires |log| == |mask| && forall i :: 0 <= i < |log| && log[i].n > 0 ==> !mask[i]
    ensures Dropped(log, mask) >= Total(log)
  {
    if log != [] { NoSpendKept(log[..|log| - 1], mask[..|log| - 1]); }
  }

  /** What a closed mask drops is no more refunds than spends. */
  lemma {:induction false} DropsNoCredit(log: Log, mask: seq<bool>)
    requires |log| == |mask| && Closed(log, mask) && NeverOverRefunded(log)
    ensures Dropped(log, mask) >= 0
  {
    if log != [] {
      var n := |log| - 1;
      if !mask[n] && log[n].n < 0 {
        NoSpendKept(log, mask);
        WholeSlice(log);
        assert Total(log[..|log|]) >= 0;
      } else {
        PrefixNeverOver(log, n);
        DropsNoCredit(log[..n], mask[..n]);
      }
    }
  }

  lemma PrefixNeverOver(log: Log, n: nat)
    requires n <= |log| && NeverOverRefunded(log)
    ensures NeverOverRefunded(log[..n])
  {
    forall k | 0 <= k <= n ensures Total(log[..n][..k]) >= 0 { assert log[..n][..k] == log[..k]; }
  }

  // ---------------------------------------------------------------- runs in step

  /** Refunds in the log are not stamped before the spends written ahead of them. */
  ghost predicate Stamped(log: Log) {
    forall i, j :: 0 <= i < j < |log| && log[i].n > 0 && log[j].n < 0 ==> log[i].at <= log[j].at
  }

  /** Every spend in the log was recorded by one of the operations, at its own time. */
  ghost predicate FromRecords(log: Log, ops: seq<Op>) {
    forall i :: 0 <= i < |log| && log[i].n > 0 ==> RecordedAt(ops, log[i].at)
  }

  ghost predicate RecordedAt(ops: seq<Op>, at: int) {
    exists k :: 0 <= k < |ops| && ops[k].Record? && ops[k].now == at
  }

  /** The persisted log is what a closed mask keeps of a complete log that is in step. */
  ghost predicate KeptBy(stored: Log, full: Log, mask: seq<bool>) {
    && |mask| == |full| && stored == Pick(full, mask)
    && Closed(full, mask) && Stamped(full) && NeverOverRefunded(full)
  }

  lemma KeptReads(stored: Log, full: Log, mask: seq<bool>, now: int)
    requires KeptBy(stored, full, mask)
    ensures KeptBy(ReadCreditLog(stored, now, DAY_MS), full, Recent(full, mask, now))
    ensures Total(ReadCreditLog(stored, now, DAY_MS)) <= Total(full)
  {
    var recent := Recent(full, mask, now);
    ReadPicked(full, mask, now);
    PickTotal(full, recent);
    DropsNoCredit(full, recent);
  }

  lemma KeptSnoc(stored: Log, full: Log, mask: seq<bool>, e: CreditSpend)
    requires KeptBy(stored, full, mask) && Total(full) + e.n >= 0
    requires e.n < 0 ==> forall i :: 0 <= i < |full| && full[i].n > 0 ==> full[i].at <= e.at
    ensures KeptBy(stored + [e], full + [e], mask + [true])
  {
    var full', mask' := full + [e], mask + [true];
    assert full'[..|full|] == full && mask'[..|full|] == mask;
    AppendKeepsBalance(full, e);
  }

  lemma KeptStep(stored: Log, full: Log, mask: seq<bool>, op: Op) returns (mask': seq<bool>)
    requires KeptBy(stored, full, mask)
    requires op.Release? ==> forall i :: 0 <= i < |full| && full[i].n > 0 ==> full[i].at <= op.now
    ensures KeptBy(Persist(stored, op), Extend(full, stored, op), mask')
  {
    var pruned := ReadCreditLog(stored, op.now, DAY_MS);
    var e := Entry(pruned, op);
    mask' := mask;
    if e.Some? {
      KeptReads(stored, full, mask, op.now);
      WholeSlice(full);
      assert Total(full[..|full|]) >= 0;
      KeptSnoc(pruned, full, Recent(full, mask, op.now), e.value);
      mask' := Recent(full, mask, op.now) + [true];
    }
  }

  lemma FromRecordsStep(stored: Log, full: Log, ops: seq<Op>, op: Op)
    requires FromRecords(full, ops)
    ensures FromRecords(Extend(full, stored, op), ops + [op])
  {
    var ops', full' := ops + [op], Extend(full, stored, op);
    assert ops'[|ops|] == op;
    forall i | 0 <= i < |full'| && full'[i].n > 0 ensures RecordedAt(ops', full'[i].at) {
      if i < |full| {
        var k :| 0 <= k < |ops| && ops[k].Record? && ops[k].now == full[i].at;
        assert ops'[k] == ops[k];
      }
    }
  }

  lemma {:induction false} InStepKeeps(ops: seq<Op>) returns (mask: seq<bool>)
    requires InStep(ops)
    ensures KeptBy(Run(ops).0, Run(ops).1, mask) && FromRecords(Run(ops).1, ops)
  {
    if ops == [] {
      mask := [];
    } else {
      var front, op := ops[..|ops| - 1], ops[|ops| - 1];
      var (stored, full) := Run(front);
      mask := InStepKeeps(front);
      forall i | op.Release? && 0 <= i < |full| && full[i].n > 0 ensures full[i].at <= op.now {
        var k :| 0 <= k < |front| && front[k].Record? && front[k].now == full[i].at;
        assert front[k] == ops[k];
      }
      mask := KeptStep(stored, full, mask, op);
      FromRecordsStep(stored, full, front, op);
      WholeIsSnoc(ops);
    }
  }

  /**
   * Whatever the amounts, a run in which no refund is stamped before an earlier spend never refunds
   * more than was spent, and no release after it does either, at whatever time.
   */
  lemma InStepIsSafe(ops: seq<Op>, n: int, now: int)
    requires InStep(ops)
    ensures NeverOverRefunded(Run(ops).1) && NeverOverRefunded(Run(ops + [Release(n, now)]).1)
  {
    var mask := InStepKeeps(ops);
    KeptReads(Run(ops).0, Run(ops).1, mask, now);
    assert Covered(ops, now);
    SafeExactlyWhenCovered(ops, now);
  }

  // ---------------------------------------------------------------- a clock that runs backwards

  /** Reading and summing the short logs below. */
  lemma ReadShort(a: CreditSpend, b: CreditSpend, now: int)
    ensures ReadCreditLog([a], now, DAY_MS) == if now - a.at < DAY_MS then [a] else []
    ensures ReadCreditLog([a, b], now, DAY_MS)
            == (if now - a.at < DAY_MS then [a] else []) + (if now - b.at < DAY_MS then [b] else [])
    ensures Total([a]) == a.n && Total([a, b]) == a.n + b.n
  {
    assert [a][..0] == [] && [a, b][..1] == [a];
    assert ReadCreditLog([], now, DAY_MS) == [];
  }

  lemma RecordFirst(n: int, t: int)
    requires n > 0
    ensures Run([Record(n, t)]) == ([CreditSpend(t, n)], [CreditSpend(t, n)])
  {
    assert Run([]) == ([], []) && ReadCreditLog([], t, DAY_MS) == [];
    RunSnoc([], Record(n, t));
    assert [] + [Record(n, t)] == [Record(n, t)];
    assert [] + [CreditSpend(t, n)] == [CreditSpend(t, n)];
  }

  lemma ReleaseAll(s: CreditSpend, t: int)
    requires s.n > 0 && t - s.at < DAY_MS
    ensures Persist([s], Release(s.n, t)) == Extend([s], [s], Release(s.n, t)) == [s, CreditSpend(t, -s.n)]
  {
    ReadShort(s, s, t);
    assert Entry([s], Release(s.n, t)) == Some(CreditSpend(t, -s.n));
    assert [s] + [CreditSpend(t, -s.n)] == [s, CreditSpend(t, -s.n)];
  }

  lemma RecordThenRelease(n: int, t0: int, t1: int)
    requires n > 0 && t1 - t0 < DAY_MS
    ensures var log := [CreditSpend(t0, n), CreditSpend(t1, -n)]; Run([Record(n, t0), Release(n, t1)]) == (log, log)
  {
    RecordFirst(n, t0);
    RunSnoc([Record(n, t0)], Release(n, t1));
    ReleaseAll(CreditSpend(t0, n), t1);
    assert [Record(n, t0)] + [Release(n, t1)] == [Record(n, t0), Release(n, t1)];
  }

  lemma PairIsSafe(n: int, t0: int, t1: int)
    requires n > 0
    ensures var log := [CreditSpend(t0, n), CreditSpend(t1, -n)]; Total(log) == 0 && NeverOverRefunded(log)
  {
    var s, r := CreditSpend(t0, n), CreditSpend(t1, -n);
    ReadShort(s, r, t0);
    forall k | 0 <= k <= 2 ensures Total([s, r][..k]) >= 0 {
      if k == 1 { assert [s, r][..1] == [s]; } else if k == 2 { assert [s, r][..2] == [s, r]; }
    }
  }

  /**
   * Credits spent at `spent`, refunded at `refunded` and released again at `again` are refunded twice
   * exactly if the log, when it is read the last time, still holds the spend and no longer its refund.
   * Any step back of the clock between the first two, however small, leaves room for such a time.
   */
  lemma BackwardClockRefundsTwice(n: int, spent: int, refunded: int, again: int)
    requires n > 0 && refunded - spent < DAY_MS
    ensures NeverOverRefunded(Run([Record(n, spent), Release(n, refunded), Release(n, again)]).1)
            <==> !(again - spent < DAY_MS <= again - refunded)
  {
    var ops := [Record(n, spent), Release(n, refunded)];
    RecordThenRelease(n, spent, refunded);
    PairIsSafe(n, spent, refunded);
    ReadShort(CreditSpend(spent, n), CreditSpend(refunded, -n), again);
    ReleaseKeepsBalance(ops, n, again);
    assert ops + [Release(n, again)] == [Record(n, spent), Release(n, refunded), Release(n, again)];
  }

  // ---------------------------------------------------------------- the condition is exact

  /** The same operations at the same times, with any amounts. */
  ghost predicate SameTimes(a: seq<Op>, b: seq<Op>) {
    |a| == |b| && forall k :: 0 <= k < |a| ==> a[k].Record? == b[k].Record? && a[k].now == b[k].now
  }

  /** The operations with every amount zero but those at `i` and `j`, which are one. */
  function OnlyTwo(ops: seq<Op>, i: nat, j: nat): (r: seq<Op>)
    ensures SameTimes(ops, r)
  {
    seq(|ops|, k requires 0 <= k < |ops| => ops[k].(n := if k == i || k == j then 1 else 0))
  }

  lemma IdleOp(ops: seq<Op>, op: Op)
    requires op.n <= 0
    ensures Run(ops + [op]) == Run(ops)
  {
    RunSnoc(ops, op);
  }

  /** The spend and the refund of such a run, as far as its first `m` operations reach them. */
  function TwoLog(i: nat, j: nat, spent: int, refunded: int, m: nat): Log {
    if m <= i then []
    else if m <= j then [CreditSpend(spent, 1)]
    else [CreditSpend(spent, 1), CreditSpend(refunded, -1)]
  }

  /** Up to `m` operations of such a run have written the spend and the refund, as far as they were reached. */
  lemma {:induction false} OnlyTwoRun(ops: seq<Op>, i: nat, j: nat, m: nat)
    requires i < j < |ops| && m <= |ops| && ops[i].Record? && ops[j].Release? && ops[j].now < ops[i].now
    ensures var log := TwoLog(i, j, ops[i].now, ops[j].now, m); Run(OnlyTwo(ops, i, j)[..m]) == (log, log)
  {
    if m > 0 {
      OnlyTwoRun(ops, i, j, m - 1);
      OnlyTwoSnoc(ops, i, j, m - 1);
    }
  }

  lemma {:induction false} OnlyTwoSnoc(ops: seq<Op>, i: nat, j: nat, m: nat)
    requires i < j < |ops| && m < |ops| && ops[i].Record? && ops[j].Release? && ops[j].now < ops[i].now
    requires var log := TwoLog(i, j, ops[i].now, ops[j].now, m); Run(OnlyTwo(ops, i, j)[..m]) == (log, log)
    ensures var log := TwoLog(i, j, ops[i].now, ops[j].now, m + 1); Run(OnlyTwo(ops, i, j)[..m + 1]) == (log, log)
  {
    var two := OnlyTwo(ops, i, j);
    assert two[..m + 1] == two[..m] + [two[m]];
    if m == i {
      SpendOnEmpty(two[..m], ops[i].now);
    } else if m == j {
      ReleaseOnOne(two[..m], CreditSpend(ops[i].now, 1), ops[j].now);
    } else {
      IdleOp(two[..m], two[m]);
    }
  }

  lemma SpendOnEmpty(ops: seq<Op>, now: int)
    requires Run(ops) == ([], [])
    ensures Run(ops + [Record(1, now)]) == ([CreditSpend(now, 1)], [CreditSpend(now, 1)])
  {
    RunSnoc(ops, Record(1, now));
    assert ReadCreditLog([], now, DAY_MS) == [] && [] + [CreditSpend(now, 1)] == [CreditSpend(now, 1)];
  }

  lemma ReleaseOnOne(ops: seq<Op>, s: CreditSpend, now: int)
    requires s.n == 1 && now < s.at && Run(ops) == ([s], [s])
    ensures Run(ops + [Release(1, now)]) == ([s, CreditSpend(now, -1)], [s, CreditSpend(now, -1)])
  {
    RunSnoc(ops, Release(1, now));
    ReleaseAll(s, now);
  }

  /** A refund stamped before an earlier spend can be refunded again a day later. */
  lemma OutOfStepFails(ops: seq<Op>, i: nat, j: nat)
    requires i < j < |ops| && ops[i].Record? && ops[j].Release? && ops[j].now < ops[i].now
    ensures !NeverOverRefunded(Run(OnlyTwo(ops, i, j) + [Release(1, ops[j].now + DAY_MS)]).1)
  {
    var two, again := OnlyTwo(ops, i, j), ops[j].now + DAY_MS;
    OnlyTwoRun(ops, i, j, |ops|);
    WholeSlice(two);
    PairIsSafe(1, ops[i].now, ops[j].now);
    ReadShort(CreditSpend(ops[i].now, 1), CreditSpend(ops[j].now, -1), again);
    ReleaseKeepsBalance(two, 1, again);
  }

  /** Whatever the amounts and whatever release follows, no more is refunded than was spent. */
  ghost predicate SafeForAllAmounts(ops: seq<Op>) {
    forall ops', n, now :: SameTimes(ops, ops') ==> NeverOverRefunded(Run(ops' + [Release(n, now)]).1)
  }

  /**
   * Which clocks are safe, by the times of the operations alone: a run is safe for all amounts and any
   * release after it if and only if no refund in it is stamped before a spend ahead of it.
   */
  lemma SafeClocksExactly(ops: seq<Op>)
    ensures SafeForAllAmounts(ops) <==> InStep(ops)
  {
    if InStep(ops) {
      forall ops', n, now | SameTimes(ops, ops') ensures NeverOverRefunded(Run(ops' + [Release(n, now)]).1) {
        InStepIsSafe(ops', n, now);
      }
    } else {
      var i, j :| 0 <= i < j < |ops| && ops[i].Record? && ops[j].Release? && ops[i].now > ops[j].now;
      OutOfStepFails(ops, i, j);
    }
  }
}

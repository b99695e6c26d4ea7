/**
 * The API-credit ledger of web/src/cache.ts: an append-only log of spends and clamped refunds that
 * is pruned to the last day on every write.
 *
 * `CreditStore` is the persisted log; it also carries, as a ghost, the complete log that was never
 * pruned, so that the two can be compared.
 */
module CreditLedger {
  import opened Prelude

  /** `n` credits spent at `at`; a refund is a negative spend. */
  datatype CreditSpend = CreditSpend(at: int, n: int)

  type Log = seq<CreditSpend>

  // ---------------------------------------------------------------- reading

  function ReadCreditLog(raw: Log, now: int, keepMs: int): Log {
    if raw == [] then []
    else
      var rest := ReadCreditLog(raw[..|raw| - 1], now, keepMs);
      if now - raw[|raw| - 1].at < keepMs then rest + [raw[|raw| - 1]] else rest
  }

  /** The sum of the entries from `from` on. */
  function SumFrom(log: Log, from: int): int {
    if log == [] then 0
    else SumFrom(log[..|log| - 1], from) + if log[|log| - 1].at >= from then log[|log| - 1].n else 0
  }

  function Total(log: Log): int {
    if log == [] then 0 else Total(log[..|log| - 1]) + log[|log| - 1].n
  }

  function OutstandingCredits(log: Log): int {
    if Total(log) > 0 then Total(log) else 0
  }

  function CreditsSpentWithin(log: Log, now: int, windowMs: int): int {
    if log == [] then 0
    else CreditsSpentWithin(log[..|log| - 1], now, windowMs)
         + if now - log[|log| - 1].at < windowMs then log[|log| - 1].n else 0
  }

  function StartOfHour(now: int): int { now / HOUR_MS * HOUR_MS }

  function StartOfUtcDay(now: int): int { now / DAY_MS * DAY_MS }

  function CreditsSpentThisHour(log: Log, now: int): int { SumFrom(log, StartOfHour(now)) }

  function CreditsSpentToday(log: Log, now: int): int { SumFrom(log, StartOfUtcDay(now)) }

  // ---------------------------------------------------------------- writing

  datatype Op = Record(n: int, now: int) | Release(n: int, now: int)

  /** The entry an operation appends to the log it has just pruned, if any. */
  function Entry(pruned: Log, op: Op): Option<CreditSpend> {
    if op.n <= 0 then None
    else if op.Record? then Some(CreditSpend(op.now, op.n))
    else
      var refund := if op.n <= OutstandingCredits(pruned) then op.n else OutstandingCredits(pruned);
      if refund <= 0 then None else Some(CreditSpend(op.now, -refund))
  }

  /** The persisted log after an operation; one that appends nothing also prunes nothing. */
  function Persist(stored: Log, op: Op): Log {
    var pruned := ReadCreditLog(stored, op.now, DAY_MS);
    var e := Entry(pruned, op);
    if e.None? then stored else pruned + [e.value]
  }

  /** The complete log after the same operation. */
  function Extend(full: Log, stored: Log, op: Op): Log {
    var e := Entry(ReadCreditLog(stored, op.now, DAY_MS), op);
    if e.None? then full else full + [e.value]
  }

  class CreditStore {
    var stored: Log
    ghost var full: Log

    constructor ()
      ensures stored == [] && full == []
    {
      stored, full := [], [];
    }

    method ReadLog(now: int, keepMs: int) returns (log: Log)
      ensures log == ReadCreditLog(stored, now, keepMs)
    {
      log := [];
      for i := 0 to |stored|
        invariant log == ReadCreditLog(stored[..i], now, keepMs)
      {
        assert stored[..i + 1][..i] == stored[..i];
        if now - stored[i].at < keepMs { log := log + [stored[i]]; }
      }
      assert stored[..|stored|] == stored;
    }

    method RecordCredits(n: int, now: int)
      modifies this
      ensures stored == Persist(old(stored), Record(n, now))
      ensures full == Extend(old(full), old(stored), Record(n, now))
    {
      if n <= 0 { return; }
      var log := ReadLog(now, DAY_MS);
      stored := log + [CreditSpend(now, n)];
      full := full + [CreditSpend(now, n)];
    }

    method ReleaseCredits(n: int, now: int)
      modifies this
      ensures stored == Persist(old(stored), Release(n, now))
      ensures full == Extend(old(full), old(stored), Release(n, now))
    {
      if n <= 0 { return; }
      var log := ReadLog(now, DAY_MS);
      var outstanding := 0;
      for i := 0 to |log|
        invariant outstanding == Total(log[..i])
      {
        assert log[..i + 1][..i] == log[..i];
        outstanding := outstanding + log[i].n;
      }
      assert log[..|log|] == log;
      var refund := if outstanding < 0 then 0 else outstanding;
      if n < refund { refund := n; }
      if refund <= 0 { return; }
      stored := log + [CreditSpend(now, -refund)];
      full := full + [CreditSpend(now, -refund)];
    }
  }

  // ---------------------------------------------------------------- whole runs

  /** Both logs after a run: what is persisted, and what was never pruned. */
  function Run(ops: seq<Op>): (Log, Log) {
    if ops == [] then ([], [])
    else
      var (stored, full) := Run(ops[..|ops| - 1]);
      var op := ops[|ops| - 1];
      (Persist(stored, op), Extend(full, stored, op))
  }

  // ---------------------------------------------------------------- pruning is invisible

  /** A reading keeps exactly the entries of the last `keepMs`. */
  lemma {:induction false} ReadMeans(raw: Log, now: int, keepMs: int, e: CreditSpend)
    ensures e in ReadCreditLog(raw, now, keepMs) <==> e in raw && e.at > now - keepMs
  {
    if raw != [] {
      ReadMeans(raw[..|raw| - 1], now, keepMs, e);
      WholeIsSnoc(raw);
    }
  }

  lemma {:induction false} ReadAppend(a: Log, e: CreditSpend, now: int, keepMs: int)
    ensures ReadCreditLog(a + [e], now, keepMs)
            == ReadCreditLog(a, now, keepMs) + if now - e.at < keepMs then [e] else []
  {
    assert (a + [e])[..|a|] == a;
  }

  /** Pruning at an earlier time, or with a longer memory, does not change a later reading. */
  lemma {:induction false} PruneThenRead(raw: Log, t: int, keep: int, now: int, keepMs: int)
    requires now - keepMs >= t - keep
    ensures ReadCreditLog(ReadCreditLog(raw, t, keep), now, keepMs) == ReadCreditLog(raw, now, keepMs)
  {
    if raw != [] {
      var front, last := raw[..|raw| - 1], raw[|raw| - 1];
      PruneThenRead(front, t, keep, now, keepMs);
      ReadAppend(ReadCreditLog(front, t, keep), last, now, keepMs);
    }
  }

  /**
   * For a reading no earlier than any write, over at most a day, the persisted log shows exactly the
   * entries of the complete one; the writes themselves may come in any order of time.
   */
  lemma {:induction false} PruningIsInvisible(ops: seq<Op>, now: int, keepMs: int)
    requires keepMs <= DAY_MS && forall k :: 0 <= k < |ops| ==> ops[k].now <= now
    ensures var (stored, full) := Run(ops); ReadCreditLog(stored, now, keepMs) == ReadCreditLog(full, now, keepMs)
  {
    if ops != [] {
      var front, op := ops[..|ops| - 1], ops[|ops| - 1];
      PruningIsInvisible(front, now, keepMs);
      var (stored, full) := Run(front);
      var pruned := ReadCreditLog(stored, op.now, DAY_MS);
      var e := Entry(pruned, op);
      if e.Some? {
        PruneThenRead(stored, op.now, DAY_MS, now, keepMs);
        ReadAppend(pruned, e.value, now, keepMs);
        ReadAppend(full, e.value, now, keepMs);
      }
    }
  }

  /** A sum over a window no longer than the reading's memory needs only what the reading shows. */
  lemma {:induction false} SumNeedsOnlyRecent(log: Log, now: int, keepMs: int, from: int)
    requires from > now - keepMs
    ensures SumFrom(ReadCreditLog(log, now, keepMs), from) == SumFrom(log, from)
  {
    if log != [] {
      var front := log[..|log| - 1];
      SumNeedsOnlyRecent(front, now, keepMs, from);
      var read := ReadCreditLog(front, now, keepMs);
      assert (read + [log[|log| - 1]])[..|read|] == read;
    }
  }

  lemma {:induction false} WithinIsSumFrom(log: Log, now: int, windowMs: int)
    ensures CreditsSpentWithin(log, now, windowMs) == SumFrom(log, now - windowMs + 1)
  {
    if log != [] { WithinIsSumFrom(log[..|log| - 1], now, windowMs); }
  }

  /**
   * The budget figures read off the persisted log at any later time, today's spend, this hour's and
   * any trailing window of at most a day, are those of the complete history.
   */
  lemma BudgetsSurvivePruning(ops: seq<Op>, now: int, windowMs: int)
    requires windowMs <= DAY_MS && forall k :: 0 <= k < |ops| ==> ops[k].now <= now
    ensures var (stored, full) := Run(ops);
      var shown := ReadCreditLog(stored, now, DAY_MS);
      && CreditsSpentToday(shown, now) == CreditsSpentToday(full, now)
      && CreditsSpentThisHour(shown, now) == CreditsSpentThisHour(full, now)
      && CreditsSpentWithin(shown, now, windowMs) == CreditsSpentWithin(full, now, windowMs)
  {
    var (stored, full) := Run(ops);
    PruningIsInvisible(ops, now, DAY_MS);
    SumNeedsOnlyRecent(full, now, DAY_MS, StartOfUtcDay(now));
    SumNeedsOnlyRecent(full, now, DAY_MS, StartOfHour(now));
    SumNeedsOnlyRecent(full, now, DAY_MS, now - windowMs + 1);
    WithinIsSumFrom(ReadCreditLog(full, now, DAY_MS), now, windowMs);
    WithinIsSumFrom(full, now, windowMs);
  }

  // ---------------------------------------------------------------- refunds never exceed spends

  ghost predicate Clocked(ops: seq<Op>) {
    forall i, j :: 0 <= i <= j < |ops| ==> ops[i].now <= ops[j].now
  }

  /** Every prefix of the log has a non-negative sum: at no point were more credits refunded than spent. */
  ghost predicate NeverOverRefunded(log: Log) {
    forall k :: 0 <= k <= |log| ==> Total(log[..k]) >= 0
  }

  ghost predicate InOrder(log: Log) {
    forall i, j :: 0 <= i <= j < |log| ==> log[i].at <= log[j].at
  }

  /** The complete log is dropped entries followed by the persisted log, in order of time. */
  ghost predicate Suffix(stored: Log, full: Log, dropped: nat) {
    dropped + |stored| == |full| && full[dropped..] == stored && InOrder(full)
  }

  lemma {:induction false} TotalSplit(log: Log, k: nat)
    requires k <= |log|
    ensures Total(log) == Total(log[..k]) + Total(log[k..])
  {
    if k == |log| {
      assert log[..k] == log;
    } else {
      var front := log[..|log| - 1];
      TotalSplit(front, k);
      assert front[..k] == log[..k];
      assert log[k..][..|log[k..]| - 1] == front[k..];
    }
  }

  /** On a log in order of time, pruning drops a prefix. */
  lemma {:induction false} PruneDropsPrefix(log: Log, now: int, keepMs: int) returns (k: nat)
    requires InOrder(log)
    ensures k <= |log| && ReadCreditLog(log, now, keepMs) == log[k..]
    ensures forall i :: 0 <= i < |log| ==> (i < k <==> now - log[i].at >= keepMs)
  {
    if log == [] {
      k := 0;
    } else {
      var front, last := log[..|log| - 1], log[|log| - 1];
      k := PruneDropsPrefix(front, now, keepMs);
      if now - last.at < keepMs {
        assert log[k..] == front[k..] + [last];
      } else {
        NothingKept(front, last, now, keepMs, k);
        assert front[k..] == [] && log[|log|..] == [];
        k := |log|;
      }
    }
  }

  lemma NothingKept(front: Log, last: CreditSpend, now: int, keepMs: int, k: nat)
    requires now - last.at >= keepMs && forall i :: 0 <= i < |front| ==> front[i].at <= last.at
    requires k <= |front| && forall i :: 0 <= i < |front| ==> (i < k <==> now - front[i].at >= keepMs)
    ensures k == |front|
  {
    if front != [] { assert front[|front| - 1].at <= last.at; }
  }

  lemma AppendKeepsBalance(full: Log, e: CreditSpend)
    requires NeverOverRefunded(full) && Total(full) + e.n >= 0
    ensures NeverOverRefunded(full + [e])
  {
    var full' := full + [e];
    assert full'[..|full|] == full;
    forall j | 0 <= j <= |full'| ensures Total(full'[..j]) >= 0 {
      if j <= |full| {
        assert full'[..j] == full[..j];
      } else {
        assert full'[..j] == full';
      }
    }
  }

  /** The clamp, taken over the recent entries only, still keeps the complete balance from going negative. */
  lemma ClampIsEnough(full: Log, dropped: nat, op: Op)
    requires dropped <= |full| && NeverOverRefunded(full)
    ensures var e := Entry(full[dropped..], op); e.Some? ==> Total(full) + e.value.n >= 0
  {
    TotalSplit(full, dropped);
    assert Total(full[..dropped]) >= 0;
    assert full[..|full|] == full && Total(full[..|full|]) >= 0;
  }

  lemma SuffixSnoc(stored: Log, full: Log, dropped: nat, k: nat, e: CreditSpend)
    requires Suffix(stored, full, dropped) && k <= |stored|
    requires forall i :: 0 <= i < |full| ==> full[i].at <= e.at
    ensures stored[k..] == full[dropped + k..]
    ensures Suffix(stored[k..] + [e], full + [e], dropped + k)
  {
    assert stored[k..] == full[dropped + k..];
    assert (full + [e])[dropped + k..] == stored[k..] + [e];
  }

  /** Pruning the persisted log leaves a later suffix of the complete one. */
  lemma PruneSuffix(stored: Log, full: Log, dropped: nat, now: int) returns (k: nat)
    requires Suffix(stored, full, dropped)
    ensures k <= |stored| && ReadCreditLog(stored, now, DAY_MS) == stored[k..] == full[dropped + k..]
  {
    assert forall i :: 0 <= i < |stored| ==> stored[i] == full[dropped + i];
    k := PruneDropsPrefix(stored, now, DAY_MS);
    assert stored[k..] == full[dropped + k..];
  }

  lemma StepKeepsSuffix(stored: Log, full: Log, dropped: nat, op: Op) returns (dropped': nat)
    requires Suffix(stored, full, dropped) && NeverOverRefunded(full)
    requires forall k :: 0 <= k < |full| ==> full[k].at <= op.now
    ensures Suffix(Persist(stored, op), Extend(full, stored, op), dropped')
    ensures NeverOverRefunded(Extend(full, stored, op))
    ensures forall k :: 0 <= k < |Extend(full, stored, op)| ==> Extend(full, stored, op)[k].at <= op.now
  {
    var k := PruneSuffix(stored, full, dropped, op.now);
    var e := Entry(stored[k..], op);
    dropped' := dropped;
    if e.Some? {
      dropped' := dropped + k;
      EntryKeepsSuffix(stored, full, dropped, k, op, e.value);
    }
  }

  lemma EntryKeepsSuffix(stored: Log, full: Log, dropped: nat, k: nat, op: Op, e: CreditSpend)
    requires Suffix(stored, full, dropped) && NeverOverRefunded(full) && k <= |stored|
    requires Entry(stored[k..], op) == Some(e) && e.at == op.now && forall i :: 0 <= i < |full| ==> full[i].at <= e.at
    ensures Suffix(stored[k..] + [e], full + [e], dropped + k) && NeverOverRefunded(full + [e])
  {
    SuffixSnoc(stored, full, dropped, k, e);
    ClampIsEnough(full, dropped + k, op);
    AppendKeepsBalance(full, e);
  }

  lemma {:induction false} RunKeepsSuffix(ops: seq<Op>) returns (dropped: nat)
    requires Clocked(ops)
    ensures var (stored, full) := Run(ops);
      && Suffix(stored, full, dropped) && NeverOverRefunded(full)
      && forall k :: 0 <= k < |full| ==> ops != [] && full[k].at <= ops[|ops| - 1].now
  {
    if ops == [] {
      dropped := 0;
    } else {
      var front, op := ops[..|ops| - 1], ops[|ops| - 1];
      var before := RunKeepsSuffix(front);
      var (stored, full) := Run(front);
      dropped := StepKeepsSuffix(stored, full, before, op);
    }
  }

  /**
   * With a clock that never runs backwards, total refunds never exceed total spends at any point of
   * any run, although each refund is only checked against the last day of the log.
   */
  lemma RefundsNeverExceedSpends(ops: seq<Op>)
    requires Clocked(ops)
    ensures NeverOverRefunded(Run(ops).1)
  {
    var _ := RunKeepsSuffix(ops);
  }

  lemma RunSnoc(ops: seq<Op>, op: Op)
    ensures var (stored, full) := Run(ops); Run(ops + [op]) == (Persist(stored, op), Extend(full, stored, op))
  {
    assert (ops + [op])[..|ops|] == ops;
  }
}

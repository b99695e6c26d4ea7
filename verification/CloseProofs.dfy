/**
 * What the session-close resolver promises: a batch gives each symbol what resolving it alone would,
 * and a close is accepted only after three spaced agreements of two providers.
 */
module CloseProofs {
  import opened Prelude
  import opened CloseResolver

  // ---------------------------------------------------------------- the batch refines the symbol

  /** What a ledger's maps and its list of cleared probes say of the given symbols. */
  ghost predicate HoldsVerdicts(i: Input, symbols: seq<string>, l: Ledger) {
    && (forall s :: s in l.bars <==> s in symbols && !Decide(i, s).Outage?)
    && (forall s :: s in l.bars ==> l.bars[s] == Decide(i, s).bars)
    && (forall s :: s in l.probes <==> s in symbols && !Decide(i, s).Reached?)
    && (forall s :: s in l.probes ==> l.probes[s] == Decide(i, s).probe)
    && (forall s :: s in l.clear <==> s in symbols && Decide(i, s).Reached?)
  }

  /** One line for each of the given symbols, in order. */
  ghost predicate HoldsLines(i: Input, symbols: seq<string>, log: seq<LogLine>) {
    && |log| == |symbols|
    && (forall k :: 0 <= k < |symbols| ==> log[k] == LogLine(symbols[k], OutcomeOf(Decide(i, symbols[k]))))
  }

  /** A ledger holds the given symbols' verdicts, each on its own line. */
  ghost predicate Holds(i: Input, symbols: seq<string>, l: Ledger) {
    HoldsVerdicts(i, symbols, l) && HoldsLines(i, symbols, l.log)
  }

  lemma VerdictsSnoc(i: Input, symbols: seq<string>, s: string, l: Ledger, d: Decision)
    requires HoldsVerdicts(i, symbols, l) && d == Decide(i, s)
    ensures HoldsVerdicts(i, symbols + [s], Booked(l, s, d))
  {
    assert forall t :: t in symbols + [s] <==> t in symbols || t == s;
  }

  lemma HoldsSnoc(i: Input, symbols: seq<string>, s: string, l: Ledger, d: Decision)
    requires Holds(i, symbols, l) && d == Decide(i, s)
    ensures Holds(i, symbols + [s], Booked(l, s, d))
  {
    VerdictsSnoc(i, symbols, s, l, d);
  }

  lemma HoldsNone(i: Input)
    ensures Holds(i, [], LedgerOf(i, []))
  {}

  lemma {:induction false} LedgerHolds(i: Input, symbols: seq<string>)
    ensures Holds(i, symbols, LedgerOf(i, symbols))
  {
    if symbols == [] {
      HoldsNone(i);
    } else {
      LedgerHolds(i, symbols[..|symbols| - 1]);
      HoldsSnoc(i, symbols[..|symbols| - 1], symbols[|symbols| - 1], LedgerOf(i, symbols[..|symbols| - 1]),
                Decide(i, symbols[|symbols| - 1]));
      WholeIsSnoc(symbols);
    }
  }

  lemma {:induction false} ClearedDistinct(i: Input, symbols: seq<string>)
    requires Distinct(symbols)
    ensures Distinct(LedgerOf(i, symbols).clear)
  {
    if symbols != [] {
      var front := symbols[..|symbols| - 1];
      ClearedDistinct(i, front);
      LedgerHolds(i, front);
      DistinctPrefix(symbols, |front|);
    }
  }

  /** The back-off calls made for one symbol. */
  function CallsFor(calls: seq<BackoffCall>, s: string): seq<BackoffCall> {
    if calls == [] then []
    else CallsFor(calls[..|calls| - 1], s) + if calls[|calls| - 1].symbol == s then [calls[|calls| - 1]] else []
  }

  lemma {:induction false} CallsForAppend(a: seq<BackoffCall>, b: seq<BackoffCall>, s: string)
    ensures CallsFor(a + b, s) == CallsFor(a, s) + CallsFor(b, s)
  {
    if b == [] {
      assert a + b == a;
    } else {
      CallsForAppend(a, b[..|b| - 1], s);
      assert (a + b)[..|a + b| - 1] == a + b[..|b| - 1];
    }
  }

  lemma {:induction false} CallsForOne(d: Decision, t: string, s: string)
    ensures CallsFor(BackoffOf(t, d), s) == if t == s then BackoffOf(t, d) else []
  {
    var calls := BackoffOf(t, d);
    if calls != [] { assert calls[..0] == [] && calls == [calls[0]]; }
  }

  lemma CallsBooked(l: Ledger, t: string, d: Decision, s: string)
    ensures CallsFor(Booked(l, t, d).backoff, s) == CallsFor(l.backoff, s) + if t == s then BackoffOf(t, d) else []
  {
    CallsForAppend(l.backoff, BackoffOf(t, d), s);
    CallsForOne(d, t, s);
  }

  /** Each symbol's provider cool-down is struck or cleared exactly as its own verdict says. */
  lemma {:induction false} BackoffPerSymbol(i: Input, symbols: seq<string>, s: string)
    requires Distinct(symbols)
    ensures CallsFor(LedgerOf(i, symbols).backoff, s) == if s in symbols then BackoffOf(s, Decide(i, s)) else []
  {
    if symbols != [] {
      var front, last := symbols[..|symbols| - 1], symbols[|symbols| - 1];
      DistinctPrefix(symbols, |front|);
      BackoffPerSymbol(i, front, s);
      BackoffStep(symbols, LedgerOf(i, front), last, Decide(i, last), s, BackoffOf(s, Decide(i, s)));
    }
  }

  lemma BackoffStep(symbols: seq<string>, l: Ledger, t: string, d: Decision, s: string, mine: seq<BackoffCall>)
    requires symbols != [] && t == symbols[|symbols| - 1] && t !in symbols[..|symbols| - 1]
    requires t == s ==> mine == BackoffOf(t, d)
    requires CallsFor(l.backoff, s) == if s in symbols[..|symbols| - 1] then mine else []
    ensures CallsFor(Booked(l, t, d).backoff, s) == if s in symbols then mine else []
  {
    CallsBooked(l, t, d, s);
    assert symbols == symbols[..|symbols| - 1] + [t];
  }

  lemma PassesPartition(i: Input, symbols: seq<string>)
    requires Distinct(symbols)
    ensures Distinct(SettledFirst(i, symbols)) && |SettledFirst(i, symbols)| == |symbols|
    ensures forall s :: s in SettledFirst(i, symbols) <==> s in symbols
  {
    PassesLengths(i, symbols);
    DistinctAppend(Passing(i, symbols, false), Passing(i, symbols, true));
  }

  lemma {:induction false} PassesLengths(i: Input, symbols: seq<string>)
    ensures |Passing(i, symbols, false)| + |Passing(i, symbols, true)| == |symbols|
  {
    if symbols != [] { PassesLengths(i, symbols[..|symbols| - 1]); }
  }

  /** What a result says about one symbol. */
  datatype Slice = Slice(bars: Option<seq<Bar>>, probe: Option<Probe>, cleared: bool, fetched: Option<seq<Bar>>)

  function Lookup<V>(m: map<string, V>, s: string): Option<V> {
    if s in m then Some(m[s]) else None
  }

  function SliceOf(r: Resolution, s: string): Slice {
    Slice(Lookup(r.bars, s), Lookup(r.closeProbe, s), s in r.closeProbeClear, Lookup(r.fetched, s))
  }

  /** The slice the symbol's own verdict calls for. */
  function SliceFor(i: Input, s: string): Slice {
    var d := Decide(i, s);
    Slice(if d.Outage? then None else Some(d.bars), if d.Reached? then None else Some(d.probe), d.Reached?,
          if FetchedOf(i, s) == [] then None else Some(FetchedOf(i, s)))
  }

  lemma FetchedInBatch(i: Input, symbols: seq<string>, s: string)
    requires s in symbols
    ensures Lookup(Resolve(i, symbols).fetched, s) == if FetchedOf(i, s) == [] then None else Some(FetchedOf(i, s))
  {}

  lemma SliceOfBatch(i: Input, symbols: seq<string>, s: string)
    requires Distinct(symbols) && s in symbols
    ensures SliceOf(Resolve(i, symbols), s) == SliceFor(i, s)
  {
    FetchedInBatch(i, symbols, s);
    PassesPartition(i, symbols);
    LedgerHolds(i, SettledFirst(i, symbols));
  }

  /**
   * Refinement: for distinct symbols, the batch gives each symbol exactly the bars, probe, clearing
   * and fetched bars that resolving it alone gives.
   */
  lemma BatchIsPerSymbol(i: Input, symbols: seq<string>, s: string)
    requires Distinct(symbols) && s in symbols
    ensures SliceOf(Resolve(i, symbols), s) == SliceOf(Resolve(i, [s]), s)
  {
    SliceOfBatch(i, symbols, s);
    SliceOfBatch(i, [s], s);
  }

  /** The batch says nothing about a symbol outside it. */
  lemma BatchTouchesNoOther(i: Input, symbols: seq<string>, s: string)
    requires Distinct(symbols) && s !in symbols
    ensures SliceOf(Resolve(i, symbols), s) == Slice(None, None, false, None)
  {
    PassesPartition(i, symbols);
    LedgerHolds(i, SettledFirst(i, symbols));
  }

  /** The batch strikes and clears each symbol's back-off as resolving it alone does. */
  lemma BatchBackoffIsPerSymbol(i: Input, symbols: seq<string>, s: string)
    requires Distinct(symbols) && s in symbols
    ensures CallsFor(LedgerOf(i, SettledFirst(i, symbols)).backoff, s)
            == CallsFor(LedgerOf(i, SettledFirst(i, [s])).backoff, s)
  {
    PassesPartition(i, symbols);
    PassesPartition(i, [s]);
    BackoffPerSymbol(i, SettledFirst(i, symbols), s);
    BackoffPerSymbol(i, SettledFirst(i, [s]), s);
  }

  /**
   * Each symbol gets one verdict, and exactly one of a new probe and a cleared one; the symbols put
   * to the secondary are those the primary could not move, once each.
   */
  lemma OneVerdictEach(i: Input, symbols: seq<string>)
    requires Distinct(symbols)
    ensures var l, r := LedgerOf(i, SettledFirst(i, symbols)), Resolve(i, symbols);
      && |l.log| == |symbols|
      && (forall j, k :: 0 <= j < k < |l.log| ==> l.log[j].symbol != l.log[k].symbol)
      && (forall s :: s in symbols ==> LogLine(s, OutcomeOf(Decide(i, s))) in l.log)
      && Distinct(r.closeProbeClear)
      && (forall s :: s in symbols <==> (s in r.closeProbe) != (s in r.closeProbeClear))
    ensures Distinct(Passing(i, symbols, true))
  {
    var order := SettledFirst(i, symbols);
    PassesPartition(i, symbols);
    LedgerHolds(i, order);
    ClearedDistinct(i, order);
    var l := LedgerOf(i, order);
    forall s | s in symbols ensures LogLine(s, OutcomeOf(Decide(i, s))) in l.log {
      var k :| 0 <= k < |order| && order[k] == s;
      assert l.log[k] == LogLine(s, OutcomeOf(Decide(i, s)));
    }
  }

  /** A symbol escalates exactly when its primary bars neither reach the close nor pass the remembered tip. */
  lemma EscalatesMeans(i: Input, s: string)
    ensures var a, tip := i.clampBars(i.fetchPrimary(s)), PrevTip(ProbeOf(i.probes, s), StoredOf(i, s));
      Escalates(i, s) <==>
        forall b :: b in a ==> b.t <= tip + i.window.tol
                               && !(b.t >= i.window.closeMs - i.window.completeTol && b.value > 0.0)
  {
    var a := i.clampBars(i.fetchPrimary(s));
    if SessionBarsComplete(a, i.window.closeMs, i.window.completeTol) {
      var k :| 0 <= k < |a| && a[k].t >= i.window.closeMs - i.window.completeTol && a[k].value > 0.0;
      assert a[k] in a;
    }
  }
}

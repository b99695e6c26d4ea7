/**
 * What the session-close resolver decides of a symbol, in terms of the two providers' bars, the tip
 * remembered of it and the window alone.
 */
module CloseVerdicts {
  import opened Prelude
  import opened CloseResolver
  import opened CloseProofs

  // ---------------------------------------------------------------- bars

  /** A bar with a positive value at the close, or within the tolerance before it. */
  ghost predicate AtClose(bars: seq<Bar>, w: Window) {
    exists b :: b in bars && b.t >= w.closeMs - w.completeTol && b.value > 0.0
  }

  ghost predicate NewestIs(bars: seq<Bar>, t: int) {
    (exists b :: b in bars && b.t == t) && forall b :: b in bars ==> b.t <= t
  }

  ghost predicate GoesPast(bars: seq<Bar>, t: int) {
    exists b :: b in bars && b.t > t
  }

  /** The tip remembered of a symbol: its probe's, or else its newest stored bar, or else the beginning of time. */
  ghost predicate Remembered(probe: Option<Probe>, stored: seq<Bar>, tip: int) {
    if probe.Some? then tip == probe.value.lastBarAt
    else if stored == [] then tip == 0
    else NewestIs(stored, tip)
  }

  lemma {:induction false} CompleteMeans(bars: seq<Bar>, w: Window)
    ensures SessionBarsComplete(bars, w.closeMs, w.completeTol) <==> AtClose(bars, w)
  {
    if AtClose(bars, w) {
      var b :| b in bars && b.t >= w.closeMs - w.completeTol && b.value > 0.0;
      var i :| 0 <= i < |bars| && bars[i] == b;
    }
  }

  lemma {:induction false} NewestMeans(bars: seq<Bar>, t: int)
    ensures NewestBarInstant(bars) == Some(t) <==> NewestIs(bars, t)
  {
    if NewestIs(bars, t) { assert bars != []; }
  }

  lemma {:induction false} PastMeans(bars: seq<Bar>, t: int)
    ensures GoesPast(bars, t) <==> NewestBarInstant(bars).Some? && NewestBarInstant(bars).value > t
  {}

  lemma {:induction false} RememberedIs(probe: Option<Probe>, stored: seq<Bar>)
    ensures Remembered(probe, stored, PrevTip(probe, stored))
  {
    RememberedMeans(probe, stored, PrevTip(probe, stored));
  }

  lemma {:induction false} RememberedMeans(probe: Option<Probe>, stored: seq<Bar>, tip: int)
    ensures Remembered(probe, stored, tip) <==> tip == PrevTip(probe, stored)
  {
    if stored != [] { NewestMeans(stored, tip); }
  }

  // ---------------------------------------------------------------- the verdict

  /** The primary leg settles the matter: it reaches the close or passes the remembered tip. */
  ghost predicate PrimaryMoves(w: Window, a: seq<Bar>, tip: int) {
    AtClose(a, w) || GoesPast(a, tip + w.tol)
  }

  /** The secondary leg is ahead of the primary one by more than the tolerance, or alone. */
  ghost predicate SecondaryAhead(w: Window, a: seq<Bar>, b: seq<Bar>) {
    b != [] && forall t :: NewestIs(a, t) ==> GoesPast(b, t + w.tol)
  }

  /** Both legs have bars, none of them at the close, and their newest instants lie within the tolerance. */
  ghost predicate Confirmed(w: Window, a: seq<Bar>, b: seq<Bar>) {
    && !AtClose(a, w) && !AtClose(b, w)
    && exists t, u :: NewestIs(a, t) && NewestIs(b, u) && -w.tol <= u - t <= w.tol
  }

  /** The bars a verdict merges. */
  function MergedBars(d: Decision): Option<seq<Bar>> {
    if d.Outage? then None else Some(d.bars)
  }

  function NextProbe(d: Decision): Option<Probe> {
    if d.Reached? then None else Some(d.probe)
  }

  ghost predicate ReachedRight(d: Decision, w: Window, a: seq<Bar>, b: seq<Bar>, tip: int) {
    && (d.Reached? <==> AtClose(a, w) || (!PrimaryMoves(w, a, tip) && AtClose(b, w)))
    && (d.Reached? ==> d.bars == if AtClose(a, w) then a else b)
  }

  ghost predicate MovedRight(d: Decision, w: Window, probe: Option<Probe>, a: seq<Bar>, b: seq<Bar>, tip: int) {
    && (d.Moved? <==>
          if PrimaryMoves(w, a, tip) then !AtClose(a, w) else !AtClose(b, w) && SecondaryAhead(w, a, b))
    && (d.Moved? ==>
          && d.bars == (if PrimaryMoves(w, a, tip) then a else b)
          && NewestIs(d.bars, d.probe.lastBarAt)
          && d.probe == Probe(d.probe.lastBarAt, Tries(probe), 1, false, w.now, 0))
  }

  ghost predicate AgreedRight(d: Decision, w: Window, probe: Option<Probe>, a: seq<Bar>, b: seq<Bar>, tip: int) {
    && (d.Agreed? <==> !PrimaryMoves(w, a, tip) && Confirmed(w, a, b))
    && (d.Agreed? ==>
          && d.bars == a && NewestIs(a, d.probe.lastBarAt)
          && d.probe == Probe(d.probe.lastBarAt, Tries(probe), 2, InARow(probe) >= 3, w.now, InARow(probe)))
  }

  ghost predicate OutageRight(d: Decision, w: Window, probe: Option<Probe>, a: seq<Bar>, b: seq<Bar>, tip: int) {
    && (d.Outage? <==>
          && !PrimaryMoves(w, a, tip) && !AtClose(b, w)
          && !SecondaryAhead(w, a, b) && !Confirmed(w, a, b))
    && (d.Outage? ==>
          && (if a == [] then d.probe.lastBarAt == tip else NewestIs(a, d.probe.lastBarAt))
          && d.probe == Probe(d.probe.lastBarAt, Tries(probe), if a == [] then 0 else 1, false, w.now, 0))
  }

  /** How often the symbol has been probed, this time included. */
  function Tries(probe: Option<Probe>): nat { if probe.None? then 1 else probe.value.attempts + 1 }

  /** How many agreements in a row this one makes. */
  function InARow(probe: Option<Probe>): nat { if probe.None? then 1 else probe.value.agreements + 1 }

  /** Every verdict, exactly, from the bars of both legs. */
  lemma {:induction false} VerdictsFollowBars(w: Window, probe: Option<Probe>, stored: seq<Bar>, a: seq<Bar>,
                                              b: seq<Bar>, tip: int)
    requires Remembered(probe, stored, tip)
    ensures var d := Judge(w, probe, stored, a, b);
      && ReachedRight(d, w, a, b, tip) && MovedRight(d, w, probe, a, b, tip)
      && AgreedRight(d, w, probe, a, b, tip) && OutageRight(d, w, probe, a, b, tip)
  {
    CompleteMeans(a, w);
    CompleteMeans(b, w);
    PastMeans(a, tip + w.tol);
    AheadMeans(w, a, b);
    ConfirmedMeans(w, a, b);
    NewestOf(a);
    NewestOf(b);
    RememberedMeans(probe, stored, tip);
    var d := Judge(w, probe, stored, a, b);
    PrimaryRight(d, w, probe, stored, a, b, tip, AtClose(a, w), AtClose(b, w));
    SecondaryRight(d, w, probe, stored, a, b, tip);
  }

  lemma {:induction false} NewestOf(bars: seq<Bar>)
    ensures bars != [] ==> NewestBarInstant(bars).Some? && NewestIs(bars, NewestBarInstant(bars).value)
  {}

  lemma {:induction false} PrimaryRight(d: Decision, w: Window, probe: Option<Probe>, stored: seq<Bar>, a: seq<Bar>,
                                        b: seq<Bar>, tip: int, closeA: bool, closeB: bool)
    requires d == Judge(w, probe, stored, a, b) && tip == PrevTip(probe, stored)
    requires closeA == AtClose(a, w) == SessionBarsComplete(a, w.closeMs, w.completeTol)
    requires closeB == AtClose(b, w) == SessionBarsComplete(b, w.closeMs, w.completeTol)
    requires a != [] ==> NewestBarInstant(a).Some? && NewestIs(a, NewestBarInstant(a).value)
    requires b != [] ==> NewestBarInstant(b).Some? && NewestIs(b, NewestBarInstant(b).value)
    requires GoesPast(a, tip + w.tol) <==> NewestBarInstant(a).Some? && NewestBarInstant(a).value > tip + w.tol
    requires SecondaryAhead(w, a, b) <==>
               && NewestBarInstant(b).Some?
               && (NewestBarInstant(a).None? || NewestBarInstant(b).value > NewestBarInstant(a).value + w.tol)
    ensures ReachedRight(d, w, a, b, tip) && MovedRight(d, w, probe, a, b, tip)
  {}

  lemma {:induction false} SecondaryRight(d: Decision, w: Window, probe: Option<Probe>, stored: seq<Bar>, a: seq<Bar>,
                                          b: seq<Bar>, tip: int)
    requires d == Judge(w, probe, stored, a, b) && tip == PrevTip(probe, stored)
    requires AtClose(a, w) == SessionBarsComplete(a, w.closeMs, w.completeTol)
    requires AtClose(b, w) == SessionBarsComplete(b, w.closeMs, w.completeTol)
    requires a != [] ==> NewestBarInstant(a).Some? && NewestIs(a, NewestBarInstant(a).value)
    requires GoesPast(a, tip + w.tol) <==> NewestBarInstant(a).Some? && NewestBarInstant(a).value > tip + w.tol
    requires SecondaryAhead(w, a, b) <==>
               && NewestBarInstant(b).Some?
               && (NewestBarInstant(a).None? || NewestBarInstant(b).value > NewestBarInstant(a).value + w.tol)
    requires Confirmed(w, a, b) <==>
               && !AtClose(a, w) && !AtClose(b, w) && NewestBarInstant(a).Some? && NewestBarInstant(b).Some?
               && -w.tol <= NewestBarInstant(b).value - NewestBarInstant(a).value <= w.tol
    ensures AgreedRight(d, w, probe, a, b, tip) && OutageRight(d, w, probe, a, b, tip)
  {}

  lemma {:induction false} AheadMeans(w: Window, a: seq<Bar>, b: seq<Bar>)
    ensures var t, u := NewestBarInstant(a), NewestBarInstant(b);
      SecondaryAhead(w, a, b) <==> u.Some? && (t.None? || u.value > t.value + w.tol)
  {
    forall t ensures NewestIs(a, t) <==> NewestBarInstant(a) == Some(t) { NewestMeans(a, t); }
    if a != [] { PastMeans(b, NewestBarInstant(a).value + w.tol); }
  }

  lemma {:induction false} ConfirmedMeans(w: Window, a: seq<Bar>, b: seq<Bar>)
    ensures var t, u := NewestBarInstant(a), NewestBarInstant(b);
      Confirmed(w, a, b) <==>
        && !AtClose(a, w) && !AtClose(b, w) && t.Some? && u.Some? && -w.tol <= u.value - t.value <= w.tol
  {
    forall t ensures NewestIs(a, t) <==> NewestBarInstant(a) == Some(t) { NewestMeans(a, t); }
    forall t ensures NewestIs(b, t) <==> NewestBarInstant(b) == Some(t) { NewestMeans(b, t); }
  }

  // ---------------------------------------------------------------- a batch

  /** The bars of both legs for a symbol, as they are judged. */
  function PrimaryLeg(i: Input, s: string): seq<Bar> { i.clampBars(i.fetchPrimary(s)) }

  function SecondaryLeg(i: Input, s: string): seq<Bar> {
    i.clampBars(if i.fetchSecondary.Some? then i.fetchSecondary.value(s) else [])
  }

  /**
   * What a batch says of each of its symbols: bars, probe and clearing are those of the verdict on its
   * two legs; the provider it cools down for is struck exactly on an outage and cleared exactly on a
   * close reached or settled; and the bars reported as fetched are the secondary's if it was asked and
   * had any, and else the primary's if that had any.
   */
  lemma {:induction false} BatchFollowsVerdicts(i: Input, symbols: seq<string>, s: string)
    requires Distinct(symbols) && s in symbols
    ensures var d := Judge(i.window, ProbeOf(i.probes, s), StoredOf(i, s), PrimaryLeg(i, s), SecondaryLeg(i, s));
      var r := SliceOf(Resolve(i, symbols), s);
      && r.bars == MergedBars(d) && r.probe == NextProbe(d) && r.cleared == d.Reached?
      && CallsFor(LedgerOf(i, SettledFirst(i, symbols)).backoff, s)
         == (if d.Outage? then [Fail(s)]
             else if d.Reached? || (d.Agreed? && d.probe.settled) then [Succeed(s)] else [])
    ensures var asked, given := i.fetchPrimary(s), if i.fetchSecondary.Some? then i.fetchSecondary.value(s) else [];
      var fetched := SliceOf(Resolve(i, symbols), s).fetched;
      if s in Passing(i, symbols, true) && given != [] then fetched == Some(given)
      else if asked != [] then fetched == Some(asked) else fetched == None
  {
    SliceOfBatch(i, symbols, s);
    PassesPartition(i, symbols);
    BackoffPerSymbol(i, SettledFirst(i, symbols), s);
  }

  /** And the log says of each symbol whether it reached its close, settled, met an outage or went on. */
  lemma {:induction false} LogFollowsVerdicts(i: Input, symbols: seq<string>, s: string)
    requires Distinct(symbols) && s in symbols
    ensures var d := Judge(i.window, ProbeOf(i.probes, s), StoredOf(i, s), PrimaryLeg(i, s), SecondaryLeg(i, s));
      LogLine(s, if d.Reached? then ReachedClose else if d.Outage? then DeferredOutage
                 else if d.Agreed? && d.probe.settled then SettledByAgreement else Progressed)
      in LedgerOf(i, SettledFirst(i, symbols)).log
  {
    OneVerdictEach(i, symbols);
  }
}

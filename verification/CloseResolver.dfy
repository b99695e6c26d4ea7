/**
 * The session-close resolver of web/src/close-completeness.ts.
 *
 * A fetcher is a function from the symbol asked for to its bars (none, if the provider had none);
 * `clampBars` is an arbitrary function.  Log lines and back-off calls are sequences in call order.
 */
module CloseResolver {
  import opened Prelude

  datatype Bar = Bar(t: int, value: real)

  datatype Probe = Probe(lastBarAt: int, attempts: nat, sources: nat, settled: bool, lastAttemptAt: int,
                         agreements: nat)

  datatype Outcome = ReachedClose | Progressed | SettledByAgreement | DeferredOutage

  datatype BackoffCall = Succeed(symbol: string) | Fail(symbol: string)

  datatype LogLine = LogLine(symbol: string, outcome: Outcome)

  datatype Window = Window(closeMs: int, tol: int, completeTol: int, now: int)

  type Fetcher = string -> seq<Bar>

  datatype Input = Input(storedBars: map<string, seq<Bar>>, probes: map<string, Probe>, window: Window,
                         clampBars: seq<Bar> -> seq<Bar>, fetchPrimary: Fetcher, fetchSecondary: Option<Fetcher>)

  datatype Resolution = Resolution(bars: map<string, seq<Bar>>, closeProbe: map<string, Probe>,
                                   closeProbeClear: seq<string>, fetched: map<string, seq<Bar>>)

  const PROBE_MIN_MS: int := 600_000
  const AGREEMENTS_TO_SETTLE: nat := 3

  function NextFullHourStart(t: int): int {
    t / HOUR_MS * HOUR_MS + HOUR_MS
  }

  predicate CloseProbeReady(probe: Option<Probe>, now: int, probeMin: int) {
    probe.None?
    || (if probe.value.sources == 2 && !probe.value.settled then now >= NextFullHourStart(probe.value.lastAttemptAt)
        else now - probe.value.lastAttemptAt >= probeMin)
  }

  // ---------------------------------------------------------------- bars

  function NewestBarInstant(bars: seq<Bar>): (r: Option<int>)
    ensures r.None? <==> bars == []
    ensures r.Some? ==> (exists b :: b in bars && b.t == r.value) && forall b :: b in bars ==> b.t <= r.value
  {
    if bars == [] then None
    else
      var before := NewestBarInstant(bars[..|bars| - 1]);
      var last := bars[|bars| - 1];
      assert bars == bars[..|bars| - 1] + [last];
      if before.None? || last.t > before.value then Some(last.t) else before
  }

  method FindNewest(bars: seq<Bar>) returns (r: Option<int>)
    ensures r == NewestBarInstant(bars)
  {
    if |bars| == 0 { return None; }
    var best := bars[0].t;
    for i := 0 to |bars|
      invariant if i == 0 then best == bars[0].t else NewestBarInstant(bars[..i]) == Some(best)
    {
      assert bars[..i + 1][..i] == bars[..i];
      if bars[i].t > best { best := bars[i].t; }
    }
    assert bars[..|bars|] == bars;
    r := Some(best);
  }

  predicate SessionBarsComplete(bars: seq<Bar>, closeMs: int, tol: int) {
    exists i :: 0 <= i < |bars| && bars[i].t >= closeMs - tol && bars[i].value > 0.0
  }

  method CheckComplete(bars: seq<Bar>, closeMs: int, tol: int) returns (r: bool)
    ensures r == SessionBarsComplete(bars, closeMs, tol)
  {
    for i := 0 to |bars|
      invariant forall j :: 0 <= j < i ==> !(bars[j].t >= closeMs - tol && bars[j].value > 0.0)
    {
      if bars[i].t >= closeMs - tol && bars[i].value > 0.0 { return true; }
    }
    r := false;
  }

  // ---------------------------------------------------------------- one symbol

  /** What the resolver decides about one symbol. */
  datatype Decision =
    | Reached(bars: seq<Bar>)
    | Moved(bars: seq<Bar>, probe: Probe)
    | Agreed(bars: seq<Bar>, probe: Probe)
    | Outage(probe: Probe)

  function ProbeOf(probes: map<string, Probe>, s: string): Option<Probe> {
    if s in probes then Some(probes[s]) else None
  }

  function StoredOf(i: Input, s: string): seq<Bar> {
    if s in i.storedBars then i.storedBars[s] else []
  }

  function PrevTip(probe: Option<Probe>, stored: seq<Bar>): int {
    if probe.Some? then probe.value.lastBarAt
    else if NewestBarInstant(stored).Some? then NewestBarInstant(stored).value
    else 0
  }

  function Attempts(probe: Option<Probe>): nat {
    if probe.Some? then probe.value.attempts + 1 else 1
  }

  function Agreements(probe: Option<Probe>): nat {
    if probe.Some? then probe.value.agreements + 1 else 1
  }

  /** The verdict on the primary leg alone; none sends the symbol to the secondary provider. */
  function JudgePrimary(w: Window, probe: Option<Probe>, stored: seq<Bar>, a: seq<Bar>): Option<Decision> {
    var tipA := NewestBarInstant(a);
    if SessionBarsComplete(a, w.closeMs, w.completeTol) then Some(Reached(a))
    else if tipA.Some? && tipA.value > PrevTip(probe, stored) + w.tol then
      Some(Moved(a, Probe(tipA.value, Attempts(probe), 1, false, w.now, 0)))
    else None
  }

  /** The verdict on both legs. */
  function JudgeBoth(w: Window, probe: Option<Probe>, stored: seq<Bar>, a: seq<Bar>, b: seq<Bar>): Decision {
    var tipA, tipB := NewestBarInstant(a), NewestBarInstant(b);
    if SessionBarsComplete(b, w.closeMs, w.completeTol) then Reached(b)
    else if tipB.Some? && (tipA.None? || tipB.value > tipA.value + w.tol) then
      Moved(b, Probe(tipB.value, Attempts(probe), 1, false, w.now, 0))
    else if tipA.Some? && tipB.Some? && -w.tol <= tipB.value - tipA.value <= w.tol then
      var settled := Agreements(probe) >= AGREEMENTS_TO_SETTLE;
      Agreed(a, Probe(tipA.value, Attempts(probe), 2, settled, w.now, Agreements(probe)))
    else
      Outage(Probe(if tipA.Some? then tipA.value else PrevTip(probe, stored), Attempts(probe),
                   if tipA.Some? then 1 else 0, false, w.now, 0))
  }

  function Escalates(i: Input, s: string): bool {
    JudgePrimary(i.window, ProbeOf(i.probes, s), StoredOf(i, s), i.clampBars(i.fetchPrimary(s))).None?
  }

  function SecondaryBars(i: Input, s: string): seq<Bar> {
    if i.fetchSecondary.Some? then i.fetchSecondary.value(s) else []
  }

  /** The verdict on a symbol, given what both legs hold for it; the second leg counts only if the first is stuck. */
  function Judge(w: Window, probe: Option<Probe>, stored: seq<Bar>, a: seq<Bar>, b: seq<Bar>): Decision {
    var first := JudgePrimary(w, probe, stored, a);
    if first.Some? then first.value else JudgeBoth(w, probe, stored, a, b)
  }

  /** The resolver's specification, for one symbol at a time. */
  function Decide(i: Input, s: string): Decision {
    Judge(i.window, ProbeOf(i.probes, s), StoredOf(i, s), i.clampBars(i.fetchPrimary(s)),
          i.clampBars(SecondaryBars(i, s)))
  }

  function OutcomeOf(d: Decision): Outcome {
    match d
    case Reached(_) => ReachedClose
    case Moved(_, _) => Progressed
    case Agreed(_, probe) => if probe.settled then SettledByAgreement else Progressed
    case Outage(_) => DeferredOutage
  }

  function BackoffOf(s: string, d: Decision): seq<BackoffCall> {
    match d
    case Reached(_) => [Succeed(s)]
    case Moved(_, _) => []
    case Agreed(_, probe) => if probe.settled then [Succeed(s)] else []
    case Outage(_) => [Fail(s)]
  }

  /** The bars of this symbol that were paid for: the secondary's, if it was asked and had any. */
  function FetchedOf(i: Input, s: string): seq<Bar> {
    if Escalates(i, s) && SecondaryBars(i, s) != [] then SecondaryBars(i, s) else i.fetchPrimary(s)
  }

  // ---------------------------------------------------------------- the whole batch

  /** The symbols of the batch that do, or do not, escalate. */
  function Passing(i: Input, symbols: seq<string>, escalating: bool): (r: seq<string>)
    ensures forall s :: s in r <==> s in symbols && Escalates(i, s) == escalating
    ensures Distinct(symbols) ==> Distinct(r)
  {
    if symbols == [] then []
    else
      var rest := Passing(i, symbols[..|symbols| - 1], escalating);
      var last := symbols[|symbols| - 1];
      if Escalates(i, last) == escalating then rest + [last] else rest
  }

  /** Everything a pass writes down: the result's records, the log and the back-off calls. */
  datatype Ledger = Ledger(bars: map<string, seq<Bar>>, probes: map<string, Probe>, clear: seq<string>,
                           log: seq<LogLine>, backoff: seq<BackoffCall>)

  const EMPTY: Ledger := Ledger(map[], map[], [], [], [])

  /** One symbol's verdict, written down. */
  function Booked(l: Ledger, s: string, d: Decision): Ledger {
    Ledger(if d.Outage? then l.bars else l.bars[s := d.bars],
           if d.Reached? then l.probes else l.probes[s := d.probe],
           if d.Reached? then l.clear + [s] else l.clear,
           l.log + [LogLine(s, OutcomeOf(d))],
           l.backoff + BackoffOf(s, d))
  }

  /** The ledger after the given symbols' verdicts, in order. */
  function LedgerOf(i: Input, symbols: seq<string>): Ledger {
    if symbols == [] then EMPTY
    else Booked(LedgerOf(i, symbols[..|symbols| - 1]), symbols[|symbols| - 1], Decide(i, symbols[|symbols| - 1]))
  }

  /** All bars a leg returned. */
  function NonEmpty(fetch: Fetcher, symbols: seq<string>): map<string, seq<Bar>> {
    map s | s in symbols && fetch(s) != [] :: fetch(s)
  }

  function SettledFirst(i: Input, symbols: seq<string>): seq<string> {
    Passing(i, symbols, false) + Passing(i, symbols, true)
  }

  function Resolve(i: Input, symbols: seq<string>): Resolution {
    var l := LedgerOf(i, SettledFirst(i, symbols));
    var primary := NonEmpty(i.fetchPrimary, symbols);
    var secondary := NonEmpty(s => SecondaryBars(i, s), Passing(i, symbols, true));
    Resolution(l.bars, l.probes, l.clear, primary + secondary)
  }

  method DecidePrimary(i: Input, s: string) returns (d: Option<Decision>)
    ensures d == JudgePrimary(i.window, ProbeOf(i.probes, s), StoredOf(i, s), i.clampBars(i.fetchPrimary(s)))
  {
    var aBars := i.clampBars(i.fetchPrimary(s));
    var probe := ProbeOf(i.probes, s);
    var tipA := FindNewest(aBars);
    var complete := CheckComplete(aBars, i.window.closeMs, i.window.completeTol);
    if complete { return Some(Reached(aBars)); }
    var prevTip := PreviousTip(i, s);
    if tipA.Some? && tipA.value > prevTip + i.window.tol {
      return Some(Moved(aBars, Probe(tipA.value, Attempts(probe), 1, false, i.window.now, 0)));
    }
    d := None;
  }

  method PreviousTip(i: Input, s: string) returns (tip: int)
    ensures tip == PrevTip(ProbeOf(i.probes, s), StoredOf(i, s))
  {
    if s in i.probes { return i.probes[s].lastBarAt; }
    var newest := FindNewest(StoredOf(i, s));
    tip := if newest.Some? then newest.value else 0;
  }

  method DecideBoth(i: Input, s: string) returns (d: Decision)
    requires Escalates(i, s)
    ensures d == Decide(i, s)
  {
    var w, probe := i.window, ProbeOf(i.probes, s);
    var aBars := i.clampBars(i.fetchPrimary(s));
    var tipA := FindNewest(aBars);
    var bBars := i.clampBars(SecondaryBars(i, s));
    var tipB := FindNewest(bBars);
    var complete := CheckComplete(bBars, w.closeMs, w.completeTol);
    if complete { return Reached(bBars); }
    if tipB.Some? && (tipA.None? || tipB.value > tipA.value + w.tol) {
      return Moved(bBars, Probe(tipB.value, Attempts(probe), 1, false, w.now, 0));
    }
    if tipA.Some? && tipB.Some? && -w.tol <= tipB.value - tipA.value <= w.tol {
      var agreements := Agreements(probe);
      var settled := agreements >= AGREEMENTS_TO_SETTLE;
      return Agreed(aBars, Probe(tipA.value, Attempts(probe), 2, settled, w.now, agreements));
    }
    var prevTip := PreviousTip(i, s);
    d := Outage(Probe(if tipA.Some? then tipA.value else prevTip, Attempts(probe),
                      if tipA.Some? then 1 else 0, false, w.now, 0));
  }

  /** Writes one verdict into the result, the log and the back-off, as each branch of both loops does. */
  method Book(l: Ledger, s: string, d: Decision) returns (r: Ledger)
    ensures r == Booked(l, s, d)
  {
    r := l;
    match d {
      case Reached(bars) =>
        r := r.(bars := r.bars[s := bars], clear := r.clear + [s], backoff := r.backoff + [Succeed(s)],
                log := r.log + [LogLine(s, ReachedClose)]);
      case Moved(bars, probe) =>
        r := r.(bars := r.bars[s := bars], probes := r.probes[s := probe], log := r.log + [LogLine(s, Progressed)]);
      case Agreed(bars, probe) =>
        r := r.(bars := r.bars[s := bars], probes := r.probes[s := probe]);
        if probe.settled {
          r := r.(backoff := r.backoff + [Succeed(s)], log := r.log + [LogLine(s, SettledByAgreement)]);
        } else {
          r := r.(log := r.log + [LogLine(s, Progressed)]);
        }
      case Outage(probe) =>
        r := r.(probes := r.probes[s := probe], backoff := r.backoff + [Fail(s)],
                log := r.log + [LogLine(s, DeferredOutage)]);
    }
  }

  /** The first loop: settles what the primary leg settles and collects the rest. */
  method FirstPass(i: Input, symbols: seq<string>) returns (l: Ledger, escalate: seq<string>)
    ensures escalate == Passing(i, symbols, true)
    ensures l == LedgerOf(i, Passing(i, symbols, false))
  {
    l, escalate := EMPTY, [];
    ghost var settled: seq<string> := [];
    for k := 0 to |symbols|
      invariant escalate == Passing(i, symbols[..k], true)
      invariant settled == Passing(i, symbols[..k], false) && l == LedgerOf(i, settled)
    {
      var s := symbols[k];
      PassingSnoc(i, symbols, k, true);
      PassingSnoc(i, symbols, k, false);
      var d := DecidePrimary(i, s);
      if d.Some? {
        l := Book(l, s, d.value);
        LedgerSnoc(i, settled, s);
        settled := settled + [s];
      } else {
        escalate := escalate + [s];
      }
    }
    assert symbols[..|symbols|] == symbols;
  }

  lemma PassingSnoc(i: Input, symbols: seq<string>, k: nat, e: bool)
    requires k < |symbols|
    ensures Passing(i, symbols[..k + 1], e)
            == Passing(i, symbols[..k], e) + (if Escalates(i, symbols[k]) == e then [symbols[k]] else [])
  {
    var front := symbols[..k + 1];
    assert front[..|front| - 1] == symbols[..k] && front[|front| - 1] == symbols[k];
  }

  lemma LedgerSnoc(i: Input, symbols: seq<string>, s: string)
    ensures LedgerOf(i, symbols + [s]) == Booked(LedgerOf(i, symbols), s, Decide(i, s))
  {
    assert (symbols + [s])[..|symbols|] == symbols;
  }

  /** The second loop: judges the escalated symbols on both legs. */
  method SecondPass(i: Input, settled: seq<string>, escalate: seq<string>, first: Ledger) returns (l: Ledger)
    requires first == LedgerOf(i, settled) && forall s :: s in escalate ==> Escalates(i, s)
    ensures l == LedgerOf(i, settled + escalate)
  {
    l := first;
    ghost var done := settled;
    assert done == settled + escalate[..0];
    for k := 0 to |escalate|
      invariant done == settled + escalate[..k]
      invariant l == LedgerOf(i, done)
    {
      var s := escalate[k];
      assert s in escalate;
      LedgerSnoc(i, done, s);
      var d := DecideBoth(i, s);
      l := Book(l, s, d);
      AppendSnoc(settled, escalate, k);
      done := done + [s];
    }
    assert escalate[..|escalate|] == escalate;
  }

  lemma AppendSnoc(a: seq<string>, b: seq<string>, k: nat)
    requires k < |b|
    ensures a + b[..k + 1] == a + b[..k] + [b[k]]
  {}

  lemma NothingToResolve(i: Input)
    ensures Resolve(i, []) == Resolution(map[], map[], [], map[])
    ensures Passing(i, [], true) == [] && LedgerOf(i, SettledFirst(i, [])) == EMPTY
  {
    assert Resolve(i, []).fetched == map[];
  }

  /** The resolver; `asked` are the symbols put to the secondary provider. */
  method ResolveCloseCompleteness(i: Input, symbols: seq<string>)
    returns (r: Resolution, asked: seq<string>, log: seq<LogLine>, backoff: seq<BackoffCall>)
    ensures r == Resolve(i, symbols)
    ensures asked == Passing(i, symbols, true)
    ensures var l := LedgerOf(i, SettledFirst(i, symbols)); log == l.log && backoff == l.backoff
  {
    asked := [];
    if |symbols| == 0 {
      NothingToResolve(i);
      return Resolution(map[], map[], [], map[]), [], [], [];
    }
    var fetched := NonEmpty(i.fetchPrimary, symbols);
    var l, escalate := FirstPass(i, symbols);
    if |escalate| > 0 {
      asked := escalate;
      l := SecondPass(i, Passing(i, symbols, false), escalate, l);
      fetched := fetched + NonEmpty(s => SecondaryBars(i, s), escalate);
    }
    assert asked == [] ==> Passing(i, symbols, false) + asked == Passing(i, symbols, false);
    assert asked == [] ==> fetched + map[] == fetched;
    r := Resolution(l.bars, l.probes, l.clear, fetched);
    log, backoff := l.log, l.backoff;
  }
}

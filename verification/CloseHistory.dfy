/**
 * Whole histories of after-close probes of one symbol.
 *
 * The driver (web/src/intraday.ts) probes a symbol only while it is short of its close, not settled,
 * and its spacing gate is open; the store (web/src/timeseries-store.ts) merges the new probe, or
 * clears it when the close was reached.  Times, bars and windows of the attempts are arbitrary, and
 * the clock may even run backwards between attempts: the gate rejects those.
 */
module CloseHistory {
  import opened Prelude
  import opened CloseResolver
  import opened CloseVerdicts

  datatype Attempt = Attempt(window: Window, stored: seq<Bar>, primary: seq<Bar>, secondary: seq<Bar>)

  datatype Finding = Close | Progress | Agreement | NoAnswer

  /** One probe that was actually made, and what it saw. */
  datatype Visit = Visit(at: int, finding: Finding, seen: Attempt)

  datatype Track = Track(probe: Option<Probe>, reached: bool, visits: seq<Visit>)

  const UNPROBED: Track := Track(None, false, [])

  function FindingOf(d: Decision): Finding {
    match d
    case Reached(_) => Close
    case Moved(_, _) => Progress
    case Agreed(_, _) => Agreement
    case Outage(_) => NoAnswer
  }

  predicate Settled(t: Track) {
    t.probe.Some? && t.probe.value.settled
  }

  /** `mergeCloseProbes` for one symbol: a settled probe stays settled, a reached close drops it. */
  function MergeProbe(prev: Option<Probe>, d: Decision): Option<Probe> {
    if d.Reached? then None
    else Some(d.probe.(settled := (prev.Some? && prev.value.settled) || d.probe.settled))
  }

  /** Whatever is found, a settled symbol stays settled until its close is reached. */
  lemma {:induction false} SettledStays(prev: Probe, d: Decision)
    requires prev.settled
    ensures !d.Reached? ==> MergeProbe(Some(prev), d).Some? && MergeProbe(Some(prev), d).value.settled
  {}

  predicate Open(t: Track, now: int) {
    !t.reached && !Settled(t) && CloseProbeReady(t.probe, now, PROBE_MIN_MS)
  }

  function Probed(t: Track, a: Attempt): Track {
    if !Open(t, a.window.now) then t
    else
      var d := Judge(a.window, t.probe, a.stored, a.primary, a.secondary);
      Track(MergeProbe(t.probe, d), d.Reached?, t.visits + [Visit(a.window.now, FindingOf(d), a)])
  }

  function After(attempts: seq<Attempt>): Track {
    if attempts == [] then UNPROBED
    else Probed(After(attempts[..|attempts| - 1]), attempts[|attempts| - 1])
  }

  /** How many visits at the end of the list found an agreement. */
  function Trailing(v: seq<Visit>): nat {
    if v == [] || !v[|v| - 1].finding.Agreement? then 0 else 1 + Trailing(v[..|v| - 1])
  }

  function HourOf(t: int): int { t / HOUR_MS }

  predicate IsFullHour(t: int) { t % 3_600_000 == 0 }

  /** A full hour begins after `a` and no later than `b`. */
  ghost predicate HourBegins(a: int, b: int) {
    exists t: int :: IsFullHour(t) && a < t <= b
  }

  /**
   * When the gate is open: always for a symbol not probed yet; after a two-source agreement that has not
   * settled, once a full hour has begun since; otherwise once ten minutes have passed.
   */
  lemma {:induction false} GateOpens(probe: Option<Probe>, now: int)
    ensures CloseProbeReady(probe, now, PROBE_MIN_MS) <==>
              || probe.None?
              || (if probe.value.sources == 2 && !probe.value.settled then HourBegins(probe.value.lastAttemptAt, now)
                  else now - probe.value.lastAttemptAt >= 600_000)
  {
    if probe.Some? { FullHours(probe.value.lastAttemptAt, now); }
  }

  lemma {:induction false} FullHours(a: int, b: int)
    ensures b >= NextFullHourStart(a) <==> HourBegins(a, b)
  {
    var next := NextFullHourStart(a);
    assert IsFullHour(next) && a < next <= a + HOUR_MS;
    if HourBegins(a, b) {
      var t :| IsFullHour(t) && a < t <= b;
      assert t >= next;
    }
  }

  /** Consecutive visits: an agreement waits for the next full hour, anything else ten minutes. */
  predicate Spaced(a: Visit, b: Visit) {
    if a.finding.Agreement? then b.at >= NextFullHourStart(a.at) else b.at >= a.at + PROBE_MIN_MS
  }

  ghost predicate Inv(t: Track) {
    && (forall k :: 0 <= k < |t.visits| - 1 ==> Spaced(t.visits[k], t.visits[k + 1]) && !t.visits[k].finding.Close?)
    && (t.probe.None? <==> t.visits == [] || t.reached)
    && (t.reached <==> t.visits != [] && t.visits[|t.visits| - 1].finding.Close?)
    && (t.probe.Some? ==>
          var p, last := t.probe.value, t.visits[|t.visits| - 1];
          && p.lastAttemptAt == last.at
          && (p.sources == 2 <==> last.finding.Agreement?)
          && p.agreements == Trailing(t.visits)
          && (p.settled <==> p.agreements >= AGREEMENTS_TO_SETTLE))
  }

  lemma InvProbed(t: Track, a: Attempt)
    requires Inv(t)
    ensures Inv(Probed(t, a))
  {
    if Open(t, a.window.now) {
      var d := Judge(a.window, t.probe, a.stored, a.primary, a.secondary);
      JudgedProbe(a.window, t.probe, a.stored, a.primary, a.secondary);
      InvVisited(t, a.window.now, d, a);
    }
  }

  lemma InvVisited(t: Track, now: int, d: Decision, a: Attempt)
    requires Inv(t) && Open(t, now)
    requires !d.Reached? ==>
               && d.probe.lastAttemptAt == now
               && (d.probe.sources == 2 <==> d.Agreed?)
               && d.probe.agreements == (if d.Agreed? then Agreements(t.probe) else 0)
               && (d.probe.settled <==> d.probe.agreements >= AGREEMENTS_TO_SETTLE)
    ensures Inv(Track(MergeProbe(t.probe, d), d.Reached?, t.visits + [Visit(now, FindingOf(d), a)]))
  {
    var v := Visit(now, FindingOf(d), a);
    var visits := t.visits + [v];
    TrailingSnoc(t.visits, v);
    forall k | 0 <= k < |visits| - 1 ensures Spaced(visits[k], visits[k + 1]) && !visits[k].finding.Close? {
      if k < |t.visits| - 1 { assert visits[k + 1] == t.visits[k + 1]; }
    }
  }

  lemma {:induction false} TrailingSnoc(v: seq<Visit>, x: Visit)
    ensures Trailing(v + [x]) == if x.finding.Agreement? then 1 + Trailing(v) else 0
  {
    assert (v + [x])[..|v|] == v;
  }

  /** What a verdict's probe records. */
  lemma JudgedProbe(w: Window, probe: Option<Probe>, stored: seq<Bar>, a: seq<Bar>, b: seq<Bar>)
    ensures var d := Judge(w, probe, stored, a, b);
      !d.Reached? ==>
        && d.probe.lastAttemptAt == w.now
        && (d.probe.sources == 2 <==> d.Agreed?)
        && d.probe.agreements == (if d.Agreed? then Agreements(probe) else 0)
        && (d.probe.settled <==> d.probe.agreements >= AGREEMENTS_TO_SETTLE)
  {}

  lemma {:induction false} InvAfter(attempts: seq<Attempt>)
    ensures Inv(After(attempts))
  {
    if attempts != [] {
      InvAfter(attempts[..|attempts| - 1]);
      InvProbed(After(attempts[..|attempts| - 1]), attempts[|attempts| - 1]);
    }
  }

  ghost predicate SawAgreement(v: Visit) { Confirmed(v.seen.window, v.seen.primary, v.seen.secondary) }

  /** An agreement is on record for two legs short of the close whose newest bars lie within the tolerance. */
  ghost predicate TrueToSight(v: Visit) {
    && v.at == v.seen.window.now
    && (v.finding.Agreement? ==> Confirmed(v.seen.window, v.seen.primary, v.seen.secondary))
    && (v.finding.Close? ==> AtClose(v.seen.primary, v.seen.window) || AtClose(v.seen.secondary, v.seen.window))
  }

  lemma {:induction false} VisitsAreTrue(attempts: seq<Attempt>)
    ensures forall k :: 0 <= k < |After(attempts).visits| ==> TrueToSight(After(attempts).visits[k])
  {
    if attempts != [] {
      var t, a := After(attempts[..|attempts| - 1]), attempts[|attempts| - 1];
      VisitsAreTrue(attempts[..|attempts| - 1]);
      RememberedIs(t.probe, a.stored);
      VerdictsFollowBars(a.window, t.probe, a.stored, a.primary, a.secondary, PrevTip(t.probe, a.stored));
    }
  }

  /**
   * A symbol is settled exactly when its last three probes all found two-source agreement; these
   * fall in three different clock hours, the first and the third more than an hour apart, and in each of
   * them both providers had bars short of the close whose newest instants lay within the tolerance.
   */
  lemma {:induction false} SettledMeansThreeAgreements(attempts: seq<Attempt>)
    ensures var t := After(attempts);
      var v, n := t.visits, |t.visits|;
      && (Settled(t) <==> n >= 3 && v[n - 3].finding.Agreement? && v[n - 2].finding.Agreement?
                          && v[n - 1].finding.Agreement?)
      && (Settled(t) ==>
            && HourOf(v[n - 3].at) < HourOf(v[n - 2].at) < HourOf(v[n - 1].at)
            && v[n - 1].at - v[n - 3].at > HOUR_MS)
      && (Settled(t) ==> SawAgreement(v[n - 3]) && SawAgreement(v[n - 2]) && SawAgreement(v[n - 1]))
  {
    InvAfter(attempts);
    VisitsAreTrue(attempts);
    var t := After(attempts);
    TrailingThree(t.visits);
  }

  lemma {:induction false} TrailingThree(v: seq<Visit>)
    ensures Trailing(v) >= 3 <==>
      |v| >= 3 && v[|v| - 3].finding.Agreement? && v[|v| - 2].finding.Agreement? && v[|v| - 1].finding.Agreement?
  {
    TrailingMore(v, 2);
    if |v| >= 1 { TrailingMore(v[..|v| - 1], 1); }
    if |v| >= 2 {
      assert v[..|v| - 1][..|v| - 2] == v[..|v| - 2];
      TrailingMore(v[..|v| - 2], 0);
    }
  }

  lemma {:induction false} TrailingMore(v: seq<Visit>, n: nat)
    ensures Trailing(v) > n <==> v != [] && v[|v| - 1].finding.Agreement? && Trailing(v[..|v| - 1]) >= n
  {}

  /** Consecutive probes are in order, and ten minutes apart unless an hour begins between them. */
  lemma SpacedMeans(a: Visit, b: Visit)
    requires Spaced(a, b)
    ensures a.at < b.at && HourOf(a.at) <= HourOf(b.at)
    ensures HourOf(a.at) == HourOf(b.at) ==> b.at >= a.at + PROBE_MIN_MS
  {}

  /** Probes later in the list are later in time; in the same hour they are ten minutes apart each. */
  lemma {:induction false} VisitsSpread(v: seq<Visit>, j: nat, k: nat)
    requires j <= k < |v| && forall i :: 0 <= i < |v| - 1 ==> Spaced(v[i], v[i + 1])
    ensures HourOf(v[j].at) <= HourOf(v[k].at)
    ensures HourOf(v[j].at) == HourOf(v[k].at) ==> v[k].at >= v[j].at + (k - j) * PROBE_MIN_MS
  {
    if j < k {
      VisitsSpread(v, j, k - 1);
      SpacedMeans(v[k - 1], v[k]);
    }
  }

  function VisitsIn(v: seq<Visit>, hour: int): set<nat> {
    set k: nat | k < |v| && HourOf(v[k].at) == hour
  }

  /** Whatever the history, no clock hour sees more than six probes of a symbol. */
  lemma AtMostSixPerHour(attempts: seq<Attempt>, hour: int)
    ensures |VisitsIn(After(attempts).visits, hour)| <= 6
  {
    var v := After(attempts).visits;
    var s := VisitsIn(v, hour);
    InvAfter(attempts);
    if s != {} {
      var m := Least(s);
      forall k | k in s ensures m <= k < m + 6 {
        VisitsSpread(v, m, k);
      }
      SubsetSize(s, {m, m + 1, m + 2, m + 3, m + 4, m + 5});
    }
  }

  /** Both legs stop short of the close, and the secondary's newest bar is ahead by more than the tolerance. */
  predicate Outrun(a: Attempt) {
    var tipA, tipB := NewestBarInstant(a.primary), NewestBarInstant(a.secondary);
    && !SessionBarsComplete(a.primary, a.window.closeMs, a.window.completeTol)
    && !SessionBarsComplete(a.secondary, a.window.closeMs, a.window.completeTol)
    && tipB.Some? && (tipA.None? || tipB.value > tipA.value + a.window.tol)
  }

  /**
   * Not every short symbol settles: while the primary lags behind the secondary, or answers nothing,
   * every probe counts as progress, even if neither provider's newest bar ever changes, and no number
   * of probes settles the symbol.
   */
  lemma {:induction false} LaggingPrimaryNeverSettles(attempts: seq<Attempt>)
    requires forall k :: 0 <= k < |attempts| ==> Outrun(attempts[k])
    ensures var t := After(attempts);
      !Settled(t) && !t.reached && forall k :: 0 <= k < |t.visits| ==> t.visits[k].finding.Progress?
  {
    if attempts != [] {
      LaggingPrimaryNeverSettles(attempts[..|attempts| - 1]);
      OutrunMoves(attempts[|attempts| - 1], After(attempts[..|attempts| - 1]).probe);
    }
  }

  lemma OutrunMoves(a: Attempt, probe: Option<Probe>)
    requires Outrun(a)
    ensures var d := Judge(a.window, probe, a.stored, a.primary, a.secondary); d.Moved? && !d.probe.settled
  {}
}

/**
 * The line and area paths of web/src/chart.ts, which split the same values into runs by two
 * independent loops.
 *
 * A path is the list of its drawing commands; a data point is named by its index, so the formatting
 * of coordinates is left out.
 */
module ChartPaths {
  import opened Prelude

  datatype Command = MoveTo(i: nat) | LineTo(i: nat) | BaseTo(i: nat) | ClosePath

  datatype Segment = Segment(start: nat, end: nat)

  datatype Chart = Chart(values: seq<Option<real>>, dates: Option<seq<string>>)

  /** `iso.slice(0, 10)`. */
  function Day(iso: string): string {
    if |iso| <= 10 then iso else iso[..10]
  }

  /** `dates[i]`, which is empty or missing when there is nothing to compare. */
  function DateAt(c: Chart, i: int): string {
    if c.dates.Some? && 0 <= i < |c.dates.value| then c.dates.value[i] else ""
  }

  /** The day changes between points `i - 1` and `i`, both of which are dated. */
  predicate DayBreak(c: Chart, i: nat) {
    i > 0 && DateAt(c, i - 1) != "" && DateAt(c, i) != "" && Day(DateAt(c, i - 1)) != Day(DateAt(c, i))
  }

  /** The first ten characters of a text, or all of a shorter one. */
  predicate DayOf(day: string, iso: string) {
    |day| <= 10 && day <= iso && (|iso| > 10 ==> |day| == 10) && (|iso| <= 10 ==> |day| == |iso|)
  }

  /** The day breaks before a point exactly if its date and the one before differ in their first ten characters. */
  lemma {:induction false} DayBreakMeans(c: Chart, i: nat, before: string, after: string)
    requires i > 0 && c.dates.Some? && i < |c.dates.value|
    requires DayOf(before, c.dates.value[i - 1]) && DayOf(after, c.dates.value[i])
    ensures DayBreak(c, i) <==> c.dates.value[i - 1] != "" && c.dates.value[i] != "" && before != after
  {}

  /** Without dates, or beyond them, and before the first point, no day breaks. */
  lemma {:induction false} UndatedDoesNotBreak(c: Chart, i: nat)
    requires i == 0 || c.dates.None? || i >= |c.dates.value|
    ensures !DayBreak(c, i)
  {}

  // ---------------------------------------------------------------- runs

  /** The runs of the first `n` points: consecutive present values without a change of day. */
  function Runs(c: Chart, n: nat): seq<Segment>
    requires n <= |c.values|
  {
    if n == 0 then [] else NextRuns(c, n - 1, Runs(c, n - 1))
  }

  function NextRuns(c: Chart, n: nat, r: seq<Segment>): seq<Segment>
    requires n < |c.values|
  {
    if c.values[n].None? then r
    else if r != [] && r[|r| - 1].end + 1 == n && !DayBreak(c, n) then Extended(r, n)
    else r + [Segment(n, n)]
  }

  predicate Inside(s: Segment, i: nat) { s.start <= i <= s.end }

  ghost predicate Covered(r: seq<Segment>, i: nat) {
    exists k :: 0 <= k < |r| && Inside(r[k], i)
  }

  /**
   * What it means for segments to be the maximal runs of the first `n` points: in order and apart,
   * covering exactly the present values, unbroken inside, and never split without a reason.
   */
  ghost predicate AreRuns(c: Chart, n: nat, r: seq<Segment>) {
    && n <= |c.values|
    && (forall k :: 0 <= k < |r| ==> r[k].start <= r[k].end < n)
    && (forall j, k :: 0 <= j < k < |r| ==> r[j].end < r[k].start)
    && (forall i :: 0 <= i < n ==> (c.values[i].Some? <==> Covered(r, i)))
    && (forall k, i :: 0 <= k < |r| && r[k].start < i <= r[k].end ==> !DayBreak(c, i))
    && (forall j, k :: 0 <= j < k < |r| && r[j].end + 1 == r[k].start ==> DayBreak(c, r[k].start))
  }

  lemma RunsBound(c: Chart, n: nat)
    requires n <= |c.values|
    ensures forall k :: 0 <= k < |Runs(c, n)| ==> Runs(c, n)[k].start <= Runs(c, n)[k].end < n
    ensures forall j, k :: 0 <= j < k < |Runs(c, n)| ==> Runs(c, n)[j].end < Runs(c, n)[k].start
  {
    if n > 0 { RunsBound(c, n - 1); }
  }

  /** The runs with the last one extended to `n`. */
  function Extended(r: seq<Segment>, n: nat): seq<Segment>
    requires r != []
  {
    r[..|r| - 1] + [Segment(r[|r| - 1].start, n)]
  }

  lemma CoverExtended(r: seq<Segment>, n: nat, i: nat)
    requires r != [] && r[|r| - 1].start <= r[|r| - 1].end && r[|r| - 1].end + 1 == n
    ensures Covered(Extended(r, n), i) <==> Covered(r, i) || i == n
  {
    var r' := Extended(r, n);
    assert forall k :: 0 <= k < |r| - 1 ==> r'[k] == r[k];
    assert Inside(r'[|r| - 1], i) <==> Inside(r[|r| - 1], i) || i == n;
    if k :| 0 <= k < |r| && Inside(r[k], i) { assert Inside(r'[k], i); }
  }

  lemma CoverOpened(r: seq<Segment>, n: nat, i: nat)
    ensures Covered(r + [Segment(n, n)], i) <==> Covered(r, i) || i == n
  {
    var r' := r + [Segment(n, n)];
    assert Inside(r'[|r|], i) <==> i == n;
    if k :| 0 <= k < |r| && Inside(r[k], i) { assert Inside(r'[k], i); }
  }

  lemma ExtendedAreRuns(c: Chart, n: nat, r: seq<Segment>)
    requires AreRuns(c, n, r) && n < |c.values| && c.values[n].Some?
    requires r != [] && r[|r| - 1].end + 1 == n && !DayBreak(c, n)
    ensures AreRuns(c, n + 1, Extended(r, n))
  {
    var r' := Extended(r, n);
    assert forall k :: 0 <= k < |r| - 1 ==> r'[k] == r[k];
    forall i | 0 <= i < n + 1 ensures c.values[i].Some? <==> Covered(r', i) { CoverExtended(r, n, i); }
  }

  lemma OpenedAreRuns(c: Chart, n: nat, r: seq<Segment>)
    requires AreRuns(c, n, r) && n < |c.values| && c.values[n].Some?
    requires r == [] || r[|r| - 1].end + 1 != n || DayBreak(c, n)
    ensures AreRuns(c, n + 1, r + [Segment(n, n)])
  {
    forall i | 0 <= i < n + 1 ensures c.values[i].Some? <==> Covered(r + [Segment(n, n)], i) { CoverOpened(r, n, i); }
  }

  lemma SkippedAreRuns(c: Chart, n: nat, r: seq<Segment>)
    requires AreRuns(c, n, r) && n < |c.values| && c.values[n].None?
    ensures AreRuns(c, n + 1, r)
  {
    forall i | 0 <= i < n + 1 ensures c.values[i].Some? <==> Covered(r, i) { NotCoveredBeyond(r, n); }
  }

  lemma NoneAreRuns(c: Chart)
    ensures AreRuns(c, 0, [])
  {}

  /** One more point keeps the runs right. */
  lemma NextAreRuns(c: Chart, n: nat, r: seq<Segment>)
    requires AreRuns(c, n, r) && n < |c.values|
    ensures AreRuns(c, n + 1, NextRuns(c, n, r))
  {
    if c.values[n].None? {
      SkippedAreRuns(c, n, r);
    } else if r != [] && r[|r| - 1].end + 1 == n && !DayBreak(c, n) {
      ExtendedAreRuns(c, n, r);
    } else {
      OpenedAreRuns(c, n, r);
    }
  }

  lemma {:induction false} RunsAreRuns(c: Chart, n: nat)
    requires n <= |c.values|
    ensures AreRuns(c, n, Runs(c, n))
  {
    if n == 0 {
      NoneAreRuns(c);
    } else {
      RunsAreRuns(c, n - 1);
      NextAreRuns(c, n - 1, Runs(c, n - 1));
    }
  }

  lemma NotCoveredBeyond(r: seq<Segment>, n: nat)
    requires forall k :: 0 <= k < |r| ==> r[k].end < n
    ensures !Covered(r, n)
  {}

  lemma StillCovered(r: seq<Segment>, k: nat, i: nat)
    requires k < |r| && Inside(r[k], i)
    ensures Covered(r, i)
  {}

  lemma CoveredBefore(r: seq<Segment>, i: nat)
    requires r != [] && i < r[|r| - 1].start
    ensures Covered(r[..|r| - 1], i) <==> Covered(r, i)
  {
    var front := r[..|r| - 1];
    assert forall k :: 0 <= k < |front| ==> front[k] == r[k];
    if k :| 0 <= k < |front| && Inside(front[k], i) { assert Inside(r[k], i); }
    if k :| 0 <= k < |r| && Inside(r[k], i) { assert Inside(front[k], i); }
  }

  lemma PrefixAreRuns(c: Chart, n: nat, r: seq<Segment>)
    requires AreRuns(c, n, r) && r != []
    ensures AreRuns(c, r[|r| - 1].start, r[..|r| - 1])
  {
    forall i | 0 <= i < r[|r| - 1].start ensures c.values[i].Some? <==> Covered(r[..|r| - 1], i) {
      CoveredBefore(r, i);
    }
  }

  /** The point just before a run, if a value is present there, ends the run before it. */
  lemma RunBefore(c: Chart, n: nat, r: seq<Segment>)
    requires AreRuns(c, n, r) && r != [] && r[|r| - 1].start > 0
    requires c.values[r[|r| - 1].start - 1].Some?
    ensures DayBreak(c, r[|r| - 1].start)
  {
    var i := r[|r| - 1].start - 1;
    var k :| 0 <= k < |r| && Inside(r[k], i);
    assert r[k].end + 1 == r[|r| - 1].start;
  }

  /** The last run of one account cannot start later than that of another. */
  lemma LastStartsNoLater(c: Chart, n: nat, a: seq<Segment>, b: seq<Segment>)
    requires AreRuns(c, n, a) && AreRuns(c, n, b) && a != [] && b != []
    requires a[|a| - 1].end == b[|b| - 1].end
    ensures a[|a| - 1].start >= b[|b| - 1].start
  {
    var s, t := a[|a| - 1], b[|b| - 1];
    if s.start < t.start {
      StillCovered(a, |a| - 1, t.start - 1);
      RunBefore(c, n, b);
    }
  }

  lemma LastEndsTogether(c: Chart, n: nat, a: seq<Segment>, b: seq<Segment>)
    requires AreRuns(c, n, a) && AreRuns(c, n, b) && a != []
    ensures b != [] && b[|b| - 1].end >= a[|a| - 1].end
  {
    var e := a[|a| - 1].end;
    assert Inside(a[|a| - 1], e) && Covered(a, e);
    var k :| 0 <= k < |b| && Inside(b[k], e);
  }

  /** The maximal runs are determined by the values and dates alone. */
  lemma {:induction false} RunsAreUnique(c: Chart, n: nat, a: seq<Segment>, b: seq<Segment>)
    requires AreRuns(c, n, a) && AreRuns(c, n, b)
    ensures a == b
    decreases |a|
  {
    if a == [] {
      if b != [] { LastEndsTogether(c, n, b, a); }
    } else {
      LastEndsTogether(c, n, a, b);
      LastEndsTogether(c, n, b, a);
      LastStartsNoLater(c, n, a, b);
      LastStartsNoLater(c, n, b, a);
      PrefixAreRuns(c, n, a);
      PrefixAreRuns(c, n, b);
      RunsAreUnique(c, a[|a| - 1].start, a[..|a| - 1], b[..|b| - 1]);
      assert a == a[..|a| - 1] + [a[|a| - 1]] && b == b[..|b| - 1] + [b[|b| - 1]];
    }
  }

  // ---------------------------------------------------------------- the two paths

  /** Draws one run: pen down at its start, lines to its end. */
  function Trace(s: Segment): seq<Command>
    requires s.start <= s.end
    decreases s.end
  {
    if s.start == s.end then [MoveTo(s.start)] else Trace(Segment(s.start, s.end - 1)) + [LineTo(s.end)]
  }

  /** Draws one run and closes it down to the baseline. */
  function Closed(s: Segment): seq<Command>
    requires s.start <= s.end
  {
    Trace(s) + [BaseTo(s.end), BaseTo(s.start), ClosePath]
  }

  ghost predicate Proper(r: seq<Segment>) {
    forall k :: 0 <= k < |r| ==> r[k].start <= r[k].end
  }

  function Lines(r: seq<Segment>): seq<Command>
    requires Proper(r)
  {
    if r == [] then [] else Lines(r[..|r| - 1]) + Trace(r[|r| - 1])
  }

  function Areas(r: seq<Segment>): seq<Command>
    requires Proper(r)
  {
    if r == [] then [] else Areas(r[..|r| - 1]) + Closed(r[|r| - 1])
  }

  lemma {:induction false} LinesExtended(r: seq<Segment>, n: nat)
    requires Proper(r) && r != [] && r[|r| - 1].end + 1 == n
    ensures Proper(Extended(r, n)) && Lines(Extended(r, n)) == Lines(r) + [LineTo(n)]
  {
    var r' := Extended(r, n);
    assert r'[..|r'| - 1] == r[..|r| - 1];
  }

  lemma {:induction false} LinesOpened(r: seq<Segment>, n: nat)
    requires Proper(r)
    ensures Proper(r + [Segment(n, n)]) && Lines(r + [Segment(n, n)]) == Lines(r) + [MoveTo(n)]
  {
    assert (r + [Segment(n, n)])[..|r|] == r;
  }

  /** The pen is up before point `i`. */
  predicate PenIsUp(r: seq<Segment>, i: nat) {
    r == [] || r[|r| - 1].end + 1 != i
  }

  /** `linePath`: one pass that lifts the pen at every gap and change of day. */
  method LinePath(c: Chart) returns (d: seq<Command>)
    ensures Proper(Runs(c, |c.values|)) && d == Lines(Runs(c, |c.values|))
  {
    d := [];
    var penUp := true;
    for i := 0 to |c.values|
      invariant Proper(Runs(c, i)) && d == Lines(Runs(c, i)) && (penUp <==> PenIsUp(Runs(c, i), i))
    {
      RunsBound(c, i);
      d, penUp := DrawPoint(c, i, d, penUp, Runs(c, i));
    }
  }

  /** One turn of the loop: `r` are the runs drawn so far. */
  method DrawPoint(c: Chart, i: nat, d: seq<Command>, penUp: bool, ghost r: seq<Segment>)
    returns (d': seq<Command>, penUp': bool)
    requires i < |c.values| && Proper(r) && d == Lines(r) && (penUp <==> PenIsUp(r, i))
    requires forall k :: 0 <= k < |r| ==> r[k].start <= r[k].end < i
    ensures Proper(NextRuns(c, i, r)) && d' == Lines(NextRuns(c, i, r))
    ensures penUp' <==> PenIsUp(NextRuns(c, i, r), i + 1)
  {
    d', penUp' := d, penUp;
    if c.values[i].None? { return d, true; }
    if DayBreak(c, i) { penUp' := true; }
    if penUp' {
      LinesOpened(r, i);
      d' := d + [MoveTo(i)];
    } else {
      LinesExtended(r, i);
      d' := d + [LineTo(i)];
    }
    penUp' := false;
  }

  /** The segments closed so far and the one still open, if any. */
  function Pending(segments: seq<Segment>, currentStart: Option<nat>, i: nat): seq<Segment> {
    if currentStart.Some? && i > 0 then segments + [Segment(currentStart.value, i - 1)] else segments
  }

  /** One turn of the first loop of `areaPathD`. */
  method Advance(c: Chart, i: nat, segments: seq<Segment>, currentStart: Option<nat>, ghost r: seq<Segment>)
    returns (segments': seq<Segment>, currentStart': Option<nat>)
    requires i < |c.values| && (currentStart.Some? ==> currentStart.value < i)
    requires r == Pending(segments, currentStart, i) && forall k :: 0 <= k < |r| ==> r[k].start <= r[k].end < i
    requires currentStart.None? ==> segments == [] || segments[|segments| - 1].end + 1 != i
    ensures currentStart'.Some? ==> currentStart'.value < i + 1
    ensures NextRuns(c, i, r) == Pending(segments', currentStart', i + 1)
    ensures currentStart'.None? ==> segments' == [] || segments'[|segments'| - 1].end + 1 != i + 1
  {
    segments', currentStart' := segments, currentStart;
    if c.values[i].None? {
      if currentStart.Some? {
        segments' := segments + [Segment(currentStart.value, i - 1)];
        currentStart' := None;
      }
    } else if currentStart.None? {
      currentStart' := Some(i);
    } else if DayBreak(c, i) {
      segments' := segments + [Segment(currentStart.value, i - 1)];
      currentStart' := Some(i);
    }
  }

  /** The first loop of `areaPathD`: the segments, from an open start and the ones already closed. */
  method Segments(c: Chart) returns (segments: seq<Segment>)
    ensures segments == Runs(c, |c.values|)
  {
    segments := [];
    var currentStart: Option<nat> := None;
    for i := 0 to |c.values|
      invariant currentStart.Some? ==> currentStart.value < i
      invariant Runs(c, i) == Pending(segments, currentStart, i)
      invariant currentStart.None? ==> segments == [] || segments[|segments| - 1].end + 1 != i
    {
      RunsBound(c, i);
      segments, currentStart := Advance(c, i, segments, currentStart, Runs(c, i));
    }
    if currentStart.Some? {
      segments := segments + [Segment(currentStart.value, |c.values| - 1)];
    }
  }

  method TraceSegment(s: Segment) returns (line: seq<Command>)
    requires s.start <= s.end
    ensures line == Trace(s)
  {
    line := [MoveTo(s.start)];
    for i := s.start + 1 to s.end + 1
      invariant line == Trace(Segment(s.start, i - 1))
    {
      line := line + [LineTo(i)];
    }
  }

  /** `areaPathD`: collects the segments, then draws each as a closed polygon. */
  method AreaPathD(c: Chart) returns (d: seq<Command>)
    ensures Proper(Runs(c, |c.values|)) && d == Areas(Runs(c, |c.values|))
  {
    var segments := Segments(c);
    RunsBound(c, |c.values|);
    d := [];
    for k := 0 to |segments|
      invariant d == Areas(segments[..k])
    {
      var line := TraceSegment(segments[k]);
      d := d + (line + [BaseTo(segments[k].end), BaseTo(segments[k].start), ClosePath]);
      assert segments[..k + 1][..k] == segments[..k];
    }
    assert segments[..|segments|] == segments;
  }

  // ---------------------------------------------------------------- the two paths agree

  /** The commands that draw through data points. */
  function OnCurve(d: seq<Command>): seq<Command> {
    if d == [] then []
    else OnCurve(d[..|d| - 1]) + if d[|d| - 1].MoveTo? || d[|d| - 1].LineTo? then [d[|d| - 1]] else []
  }

  lemma {:induction false} OnCurveAppend(a: seq<Command>, b: seq<Command>)
    ensures OnCurve(a + b) == OnCurve(a) + OnCurve(b)
  {
    if b == [] {
      assert a + b == a;
    } else {
      OnCurveAppend(a, b[..|b| - 1]);
      assert (a + b)[..|a + b| - 1] == a + b[..|b| - 1];
    }
  }

  lemma {:induction false} TraceOnCurve(start: nat, end: nat)
    requires start <= end
    ensures OnCurve(Trace(Segment(start, end))) == Trace(Segment(start, end))
    decreases end
  {
    if start < end {
      TraceOnCurve(start, end - 1);
      OnCurveSnoc(Trace(Segment(start, end - 1)), LineTo(end));
    } else {
      OnCurveSnoc([], MoveTo(start));
      assert [] + [MoveTo(start)] == [MoveTo(start)];
    }
  }

  lemma OnCurveSnoc(d: seq<Command>, c: Command)
    requires c.MoveTo? || c.LineTo?
    ensures OnCurve(d + [c]) == OnCurve(d) + [c]
  {
    assert (d + [c])[..|d|] == d;
  }

  lemma ClosedOnCurve(s: Segment)
    requires s.start <= s.end
    ensures OnCurve(Closed(s)) == Trace(s)
  {
    var tail := [BaseTo(s.end), BaseTo(s.start), ClosePath];
    TraceOnCurve(s.start, s.end);
    OnCurveAppend(Trace(s), tail);
    assert tail[..2] == [BaseTo(s.end), BaseTo(s.start)];
    assert tail[..2][..1] == [BaseTo(s.end)] && tail[..2][..1][..0] == [];
    assert OnCurve(tail[..2][..1]) == [] && OnCurve(tail[..2]) == [];
  }

  lemma {:induction false} AreasOnCurve(r: seq<Segment>)
    requires Proper(r)
    ensures OnCurve(Areas(r)) == Lines(r)
  {
    if r != [] {
      AreasOnCurve(r[..|r| - 1]);
      OnCurveAppend(Areas(r[..|r| - 1]), Closed(r[|r| - 1]));
      ClosedOnCurve(r[|r| - 1]);
    }
  }

  /**
   * On every input the two loops agree: both draw exactly the maximal runs, the area one polygon for
   * each run in the same order, and without its closing strokes the area path is the line path.
   */
  lemma PathsAgree(c: Chart, r: seq<Segment>)
    requires AreRuns(c, |c.values|, r)
    ensures Proper(r) && Proper(Runs(c, |c.values|))
    ensures Lines(Runs(c, |c.values|)) == Lines(r) && Areas(Runs(c, |c.values|)) == Areas(r)
    ensures OnCurve(Areas(Runs(c, |c.values|))) == Lines(Runs(c, |c.values|))
  {
    RunsAreRuns(c, |c.values|);
    RunsAreUnique(c, |c.values|, r, Runs(c, |c.values|));
    AreasOnCurve(r);
  }
}

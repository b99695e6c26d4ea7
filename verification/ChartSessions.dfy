/**
 * The collapsed session axis of web/src/chart.ts: every day gets an equal band, and a point sits in
 * its band where its time of day lies between the earliest open and the latest close.
 *
 * A label is the calendar day its text starts with (none, if it does not start with one) and the time
 * of day it parses to (none, if it does not parse).  Lengths are reals.
 */
module ChartSessions {
  import opened Prelude

  datatype Label = Label(day: Option<int>, tod: Option<int>)

  datatype Group = Group(start: nat, end: nat, day: int)

  datatype Band = Band(start: nat, end: nat, center: real, day: int)

  datatype Layout = Layout(fractions: seq<real>, separators: seq<real>, bands: seq<Band>)

  /** The label of a UTC instant. */
  function LabelOf(t: int): Label { Label(Some(t / DAY_MS), Some(t % DAY_MS)) }

  predicate Dated(labels: seq<Label>) {
    forall i :: 0 <= i < |labels| ==> labels[i].day.Some?
  }

  // ---------------------------------------------------------------- groups

  /** The groups of the first `n` labels: consecutive labels of one day. */
  function Groups(labels: seq<Label>, n: nat): (r: seq<Group>)
    requires n <= |labels| && Dated(labels)
    ensures n > 0 ==> r != [] && r[|r| - 1].end == n - 1
  {
    if n == 0 then []
    else
      var before, day := Groups(labels, n - 1), labels[n - 1].day.value;
      if before != [] && before[|before| - 1].day == day then
        before[..|before| - 1] + [before[|before| - 1].(end := n - 1)]
      else before + [Group(n - 1, n - 1, day)]
  }

  /** The groups tile the labels, each is of one day, and neighbours are of different days. */
  ghost predicate AreDayRuns(labels: seq<Label>, n: nat, r: seq<Group>) {
    && n <= |labels| && Dated(labels)
    && (n > 0 <==> r != [])
    && (forall k :: 0 <= k < |r| ==> r[k].start <= r[k].end < n)
    && (n > 0 ==> r[0].start == 0 && r[|r| - 1].end == n - 1)
    && (forall k :: 0 <= k < |r| - 1 ==> r[k].end + 1 == r[k + 1].start && r[k].day != r[k + 1].day)
    && (forall k, i :: 0 <= k < |r| && r[k].start <= i <= r[k].end ==> labels[i].day.value == r[k].day)
  }

  lemma DayContinues(labels: seq<Label>, n: nat, r: seq<Group>)
    requires AreDayRuns(labels, n, r) && n < |labels| && r != [] && labels[n].day.value == r[|r| - 1].day
    ensures AreDayRuns(labels, n + 1, r[..|r| - 1] + [r[|r| - 1].(end := n)])
  {
    var r' := r[..|r| - 1] + [r[|r| - 1].(end := n)];
    assert forall k :: 0 <= k < |r| - 1 ==> r'[k] == r[k];
  }

  lemma DayBegins(labels: seq<Label>, n: nat, r: seq<Group>)
    requires AreDayRuns(labels, n, r) && n < |labels| && (r == [] || labels[n].day.value != r[|r| - 1].day)
    ensures AreDayRuns(labels, n + 1, r + [Group(n, n, labels[n].day.value)])
  {
    var r' := r + [Group(n, n, labels[n].day.value)];
    assert forall k :: 0 <= k < |r| ==> r'[k] == r[k];
  }

  lemma {:induction false} GroupsAreDayRuns(labels: seq<Label>, n: nat)
    requires n <= |labels| && Dated(labels)
    ensures AreDayRuns(labels, n, Groups(labels, n))
  {
    if n > 0 {
      var before := Groups(labels, n - 1);
      GroupsAreDayRuns(labels, n - 1);
      if before != [] && before[|before| - 1].day == labels[n - 1].day.value {
        DayContinues(labels, n - 1, before);
      } else {
        DayBegins(labels, n - 1, before);
      }
    }
  }

  method CollectGroups(labels: seq<Label>) returns (groups: Option<seq<Group>>)
    ensures groups == if Dated(labels) then Some(Groups(labels, |labels|)) else None
  {
    var r: seq<Group> := [];
    for i := 0 to |labels|
      invariant forall j :: 0 <= j < i ==> labels[j].day.Some?
      invariant Dated(labels) ==> r == Groups(labels, i)
    {
      if labels[i].day.None? { return None; }
      var day := labels[i].day.value;
      if |r| > 0 && r[|r| - 1].day == day {
        r := r[..|r| - 1] + [r[|r| - 1].(end := i)];
      } else {
        r := r + [Group(i, i, day)];
      }
    }
    groups := Some(r);
  }

  // ---------------------------------------------------------------- the shared session span

  /** The earliest open and latest close; `None` stands for the initial infinities. */
  datatype Span = Span(open: Option<int>, close: Option<int>)

  function Widen(s: Span, tod: Option<int>): Span {
    if tod.None? then s
    else Span(if s.open.None? || tod.value < s.open.value then tod else s.open,
              if s.close.None? || tod.value > s.close.value then tod else s.close)
  }

  function SpanOf(labels: seq<Label>): (s: Span)
    ensures s.open.Some? <==> s.close.Some?
    ensures forall i :: 0 <= i < |labels| && labels[i].tod.Some? ==>
      s.open.Some? && s.open.value <= labels[i].tod.value <= s.close.value
  {
    if labels == [] then Span(None, None)
    else Widen(SpanOf(labels[..|labels| - 1]), labels[|labels| - 1].tod)
  }

  method FindSpan(labels: seq<Label>) returns (s: Span)
    ensures s == SpanOf(labels)
  {
    s := Span(None, None);
    for i := 0 to |labels|
      invariant s == SpanOf(labels[..i])
    {
      assert labels[..i + 1][..i] == labels[..i];
      s := Widen(s, labels[i].tod);
    }
    assert labels[..|labels|] == labels;
  }

  function Length(s: Span): int {
    if s.open.Some? && s.close.Some? then s.close.value - s.open.value else 0
  }

  /** A label's fraction of the span, unless there is no span or no usable time. */
  function SessionFractionOf(s: Span, l: Label): Option<real> {
    if Length(s) <= 0 || l.tod.None? || l.tod.value < s.open.value || l.tod.value > s.close.value then None
    else Some((l.tod.value - s.open.value) as real / Length(s) as real)
  }

  // ---------------------------------------------------------------- positions

  /** Where a point sits within its band: by time of day, in the middle, or evenly by index. */
  function Offset(s: Span, labels: seq<Label>, g: Group, i: nat): real
    requires g.start <= i <= g.end && i < |labels|
  {
    var sf := SessionFractionOf(s, labels[i]);
    if sf.Some? then sf.value
    else if g.end == g.start then 0.5
    else (i - g.start) as real / (g.end - g.start) as real
  }

  function Width(bands: nat): real
    requires bands > 0
  {
    1.0 / bands as real
  }

  function BandStart(k: nat, width: real): real { k as real * width }

  function Place(k: nat, offset: real, width: real): real {
    BandStart(k, width) + offset * width
  }

  function BandAt(g: Group, k: nat, width: real): Band {
    Band(g.start, g.end, BandStart(k, width) + width / 2.0, g.day)
  }

  /** Every point of every group is where its offset says. */
  ghost predicate Placed(s: Span, labels: seq<Label>, groups: seq<Group>, upTo: nat, fractions: seq<real>)
    requires upTo <= |groups|
  {
    && |fractions| == |labels|
    && forall k, i :: 0 <= k < upTo && groups[k].start <= i <= groups[k].end && i < |labels| ==>
         fractions[i] == Place(k, Offset(s, labels, groups[k], i), Width(|groups|))
  }

  method FillBand(s: Span, labels: seq<Label>, g: Group, k: nat, width: real, fractions: seq<real>)
    returns (r: seq<real>)
    requires g.start <= g.end < |labels| == |fractions|
    ensures |r| == |fractions|
    ensures forall i :: g.start <= i <= g.end ==> r[i] == Place(k, Offset(s, labels, g, i), width)
    ensures forall i :: 0 <= i < |r| && (i < g.start || i > g.end) ==> r[i] == fractions[i]
  {
    r := fractions;
    var bandStart := BandStart(k, width);
    var count := g.end - g.start;
    for i := g.start to g.end + 1
      invariant |r| == |fractions|
      invariant forall j :: g.start <= j < i ==> r[j] == Place(k, Offset(s, labels, g, j), width)
      invariant forall j :: 0 <= j < |r| && (j < g.start || j >= i) ==> r[j] == fractions[j]
    {
      var sf := SessionFractionOf(s, labels[i]);
      var f;
      if sf.Some? {
        f := sf.value;
      } else if count == 0 {
        f := 0.5;
      } else {
        f := (i - g.start) as real / count as real;
      }
      assert f == Offset(s, labels, g, i);
      r := r[i := bandStart + f * width];
    }
  }

  /** `sessionFractions`. */
  method SessionFractions(labels: seq<Label>) returns (r: Option<Layout>)
    ensures r.Some? <==> |labels| >= 2 && Dated(labels)
    ensures r.Some? ==> IsLayout(labels, r.value)
  {
    if |labels| < 2 { return None; }
    var collected := CollectGroups(labels);
    if collected.None? { return None; }
    var groups := collected.value;
    GroupsAreDayRuns(labels, |labels|);
    var s := FindSpan(labels);
    var layout := PlaceGroups(s, labels, groups);
    r := Some(layout);
  }

  /** Filling the next band keeps the earlier ones. */
  lemma PlacedStep(s: Span, labels: seq<Label>, groups: seq<Group>, k: nat, before: seq<real>, after: seq<real>)
    requires k < |groups| && Placed(s, labels, groups, k, before) && |after| == |before|
    requires groups[k].start <= groups[k].end < |labels|
    requires forall j :: 0 <= j < k ==> groups[j].end < groups[k].start
    requires forall i :: groups[k].start <= i <= groups[k].end ==>
      after[i] == Place(k, Offset(s, labels, groups[k], i), Width(|groups|))
    requires forall i :: 0 <= i < |after| && (i < groups[k].start || i > groups[k].end) ==> after[i] == before[i]
    ensures Placed(s, labels, groups, k + 1, after)
  {
    forall j, i | 0 <= j < k + 1 && groups[j].start <= i <= groups[j].end && i < |labels|
      ensures after[i] == Place(j, Offset(s, labels, groups[j], i), Width(|groups|))
    {
      if j < k { assert after[i] == before[i]; }
    }
  }

  method PlaceGroups(s: Span, labels: seq<Label>, groups: seq<Group>) returns (r: Layout)
    requires AreDayRuns(labels, |labels|, groups) && groups != []
    ensures LaidOut(s, labels, groups, r)
  {
    var width := Width(|groups|);
    var fractions := seq(|labels|, _ => 0.0);
    var separators: seq<real> := [];
    var bands: seq<Band> := [];
    for k := 0 to |groups|
      invariant Placed(s, labels, groups, k, fractions)
      invariant separators == SeparatorsUpTo(k, width)
      invariant bands == BandsUpTo(groups, k, width)
    {
      var bandStart := BandStart(k, width);
      if k > 0 { separators := separators + [bandStart]; }
      GroupsApart(labels, groups, k);
      ghost var before := fractions;
      fractions := FillBand(s, labels, groups[k], k, width, fractions);
      PlacedStep(s, labels, groups, k, before, fractions);
      bands := bands + [BandAt(groups[k], k, width)];
    }
    r := Layout(fractions, separators, bands);
  }

  /** Groups before the `k`th lie before it. */
  lemma {:induction false} GroupsInOrder(labels: seq<Label>, groups: seq<Group>, j: nat, k: nat)
    requires AreDayRuns(labels, |labels|, groups) && j < k < |groups|
    ensures groups[j].end < groups[k].start
  {
    if j + 1 < k { GroupsInOrder(labels, groups, j, k - 1); }
  }

  lemma GroupsApart(labels: seq<Label>, groups: seq<Group>, k: nat)
    requires AreDayRuns(labels, |labels|, groups) && k < |groups|
    ensures forall j :: 0 <= j < k ==> groups[j].end < groups[k].start
  {
    forall j | 0 <= j < k ensures groups[j].end < groups[k].start { GroupsInOrder(labels, groups, j, k); }
  }

  function SeparatorsUpTo(k: nat, width: real): seq<real> {
    if k <= 1 then [] else SeparatorsUpTo(k - 1, width) + [BandStart(k - 1, width)]
  }

  function BandsUpTo(groups: seq<Group>, k: nat, width: real): seq<Band>
    requires k <= |groups|
  {
    if k == 0 then []
    else BandsUpTo(groups, k - 1, width) + [BandAt(groups[k - 1], k - 1, width)]
  }

  /** The layout of dated labels: their day runs as bands, and every point placed in its band. */
  ghost predicate IsLayout(labels: seq<Label>, r: Layout)
  {
    && Dated(labels) && labels != []
    && LaidOut(SpanOf(labels), labels, Groups(labels, |labels|), r)
  }

  /** Every point placed in its group's band, every separator and every band. */
  ghost predicate LaidOut(s: Span, labels: seq<Label>, groups: seq<Group>, r: Layout)
    requires groups != []
  {
    && Placed(s, labels, groups, |groups|, r.fractions)
    && r.separators == SeparatorsUpTo(|groups|, Width(|groups|))
    && r.bands == BandsUpTo(groups, |groups|, Width(|groups|))
  }
}

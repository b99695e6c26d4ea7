/**
 * What the collapsed session axis promises for ascending UTC instants.
 */
module ChartProofs {
  import opened Prelude
  import opened ChartSessions

  function Labels(times: seq<int>): (r: seq<Label>)
    ensures |r| == |times| && (forall i :: 0 <= i < |r| ==> r[i] == LabelOf(times[i])) && Dated(r)
  {
    seq(|times|, i requires 0 <= i < |times| => LabelOf(times[i]))
  }

  ghost predicate Ascending(times: seq<int>) {
    forall i, j :: 0 <= i <= j < |times| ==> times[i] <= times[j]
  }

  /** On one day, later instants have later times of day. */
  lemma SameDayOrder(s: int, t: int)
    requires s <= t && s / DAY_MS == t / DAY_MS
    ensures s % DAY_MS <= t % DAY_MS
  {}

  // ---------------------------------------------------------------- arithmetic

  lemma RatioInUnit(a: real, c: real)
    requires 0.0 <= a <= c && c > 0.0
    ensures 0.0 <= a / c <= 1.0
  {}

  lemma RatioMonotone(a: real, b: real, c: real)
    requires a <= b && c > 0.0
    ensures a / c <= b / c
  {}

  lemma ProductMonotone(a: real, b: real, w: real)
    requires a <= b && w >= 0.0
    ensures a * w <= b * w
  {}

  lemma WidthPositive(g: nat)
    requires g > 0
    ensures Width(g) > 0.0 && BandStart(g, Width(g)) == 1.0
  {}

  lemma NextBand(k: nat, width: real)
    ensures BandStart(k + 1, width) == BandStart(k, width) + width
  {}

  /** A band's points stay between its start and the next one's. */
  lemma PlaceInBand(k: nat, offset: real, width: real)
    requires 0.0 <= offset <= 1.0 && width > 0.0
    ensures BandStart(k, width) <= Place(k, offset, width) <= BandStart(k + 1, width)
  {
    PartOfBand(offset, width);
    NextBand(k, width);
  }

  lemma PartOfBand(offset: real, width: real)
    requires 0.0 <= offset <= 1.0 && width > 0.0
    ensures 0.0 <= offset * width <= width
  {}

  lemma BandsInOrder(j: nat, k: nat, width: real)
    requires j <= k && width > 0.0
    ensures BandStart(j, width) <= BandStart(k, width)
  {
    ProductMonotone(j as real, k as real, width);
  }

  // ---------------------------------------------------------------- offsets

  lemma FractionInUnit(labels: seq<Label>, l: Label)
    ensures var f := SessionFractionOf(SpanOf(labels), l); f.Some? ==> 0.0 <= f.value <= 1.0
  {
    var s := SpanOf(labels);
    if SessionFractionOf(s, l).Some? {
      RatioInUnit((l.tod.value - s.open.value) as real, Length(s) as real);
    }
  }

  lemma OffsetInUnit(labels: seq<Label>, g: Group, i: nat)
    requires g.start <= i <= g.end && i < |labels|
    ensures 0.0 <= Offset(SpanOf(labels), labels, g, i) <= 1.0
  {
    FractionInUnit(labels, labels[i]);
    if g.end > g.start {
      RatioInUnit((i - g.start) as real, (g.end - g.start) as real);
    }
  }

  /** A timed label has a fraction exactly when the window's times of day differ at all. */
  lemma TimedFraction(labels: seq<Label>, i: nat)
    requires i < |labels| && labels[i].tod.Some?
    ensures SessionFractionOf(SpanOf(labels), labels[i]).Some? <==> Length(SpanOf(labels)) > 0
  {}

  lemma OffsetsAscend(times: seq<int>, g: Group, i: nat, j: nat)
    requires Ascending(times) && g.start <= i <= j <= g.end && j < |times|
    requires times[i] / DAY_MS == times[j] / DAY_MS
    ensures var s, labels := SpanOf(Labels(times)), Labels(times);
      Offset(s, labels, g, i) <= Offset(s, labels, g, j)
  {
    var s, labels := SpanOf(Labels(times)), Labels(times);
    TimedFraction(labels, i);
    TimedFraction(labels, j);
    SameDayOrder(times[i], times[j]);
    if Length(s) > 0 {
      RatioMonotone((labels[i].tod.value - s.open.value) as real, (labels[j].tod.value - s.open.value) as real,
                    Length(s) as real);
    } else if g.end > g.start {
      RatioMonotone((i - g.start) as real, (j - g.start) as real, (g.end - g.start) as real);
    }
  }

  // ---------------------------------------------------------------- theorems

  /** The group a point falls in. */
  ghost predicate InGroup(g: Group, i: nat) { g.start <= i <= g.end }

  lemma {:induction false} GroupOf(labels: seq<Label>, r: seq<Group>, i: nat, hi: nat) returns (k: nat)
    requires AreDayRuns(labels, |labels|, r) && 0 < hi <= |r| && i <= r[hi - 1].end
    ensures k < hi && InGroup(r[k], i)
  {
    if r[hi - 1].start <= i {
      k := hi - 1;
    } else {
      assert hi > 1;
      assert r[hi - 2].end + 1 == r[hi - 1].start;
      k := GroupOf(labels, r, i, hi - 1);
    }
  }

  /** Points of an earlier group come earlier. */
  lemma GroupsOrderPoints(labels: seq<Label>, r: seq<Group>, i: nat, j: nat, k: nat, l: nat)
    requires AreDayRuns(labels, |labels|, r) && k < |r| && l < |r|
    requires InGroup(r[k], i) && InGroup(r[l], j) && i <= j
    ensures k <= l
  {
    if l < k { GroupsInOrder(labels, r, l, k); }
  }

  /**
   * Every point of the `k`th of `g` bands lies in [k/g, (k+1)/g], where the bands are the maximal
   * runs of points of one day; the last band ends at 1.
   */
  lemma BandsHoldTheirPoints(labels: seq<Label>, r: Layout, k: nat, i: nat)
    requires IsLayout(labels, r)
    ensures var groups := Groups(labels, |labels|);
      && AreDayRuns(labels, |labels|, groups)
      && BandStart(|groups|, Width(|groups|)) == 1.0
      && (k < |groups| && InGroup(groups[k], i) ==>
            BandStart(k, Width(|groups|)) <= r.fractions[i] <= BandStart(k + 1, Width(|groups|)))
  {
    var groups := Groups(labels, |labels|);
    GroupsAreDayRuns(labels, |labels|);
    WidthPositive(|groups|);
    if k < |groups| && InGroup(groups[k], i) {
      OffsetInUnit(labels, groups[k], i);
      PlaceInBand(k, Offset(SpanOf(labels), labels, groups[k], i), Width(|groups|));
    }
  }

  /** Positions never go backwards along the chart. */
  lemma FractionsAscend(times: seq<int>, r: Layout, i: nat, j: nat)
    requires Ascending(times) && IsLayout(Labels(times), r) && i <= j < |times|
    ensures r.fractions[i] <= r.fractions[j]
  {
    var labels := Labels(times);
    var groups := Groups(labels, |labels|);
    GroupsAreDayRuns(labels, |labels|);
    var k := GroupOf(labels, groups, i, |groups|);
    var l := GroupOf(labels, groups, j, |groups|);
    GroupsOrderPoints(labels, groups, i, j, k, l);
    if k == l {
      SameGroupAscends(times, r, groups, k, i, j);
    } else {
      BandsHoldTheirPoints(labels, r, k, i);
      BandsHoldTheirPoints(labels, r, l, j);
      WidthPositive(|groups|);
      BandsInOrder(k + 1, l, Width(|groups|));
    }
  }

  lemma SameGroupAscends(times: seq<int>, r: Layout, groups: seq<Group>, k: nat, i: nat, j: nat)
    requires Ascending(times) && i <= j < |times|
    requires groups != [] && AreDayRuns(Labels(times), |times|, groups)
    requires Placed(SpanOf(Labels(times)), Labels(times), groups, |groups|, r.fractions)
    requires k < |groups| && InGroup(groups[k], i) && InGroup(groups[k], j)
    ensures r.fractions[i] <= r.fractions[j]
  {
    var labels, s := Labels(times), SpanOf(Labels(times));
    assert labels[i].day.value == groups[k].day == labels[j].day.value;
    OffsetsAscend(times, groups[k], i, j);
    WidthPositive(|groups|);
    PlaceMonotone(k, Offset(s, labels, groups[k], i), Offset(s, labels, groups[k], j), Width(|groups|));
  }

  lemma PlaceMonotone(k: nat, a: real, b: real, width: real)
    requires a <= b && width > 0.0
    ensures Place(k, a, width) <= Place(k, b, width)
  {
    ProductMonotone(a, b, width);
  }

  /** Equal times of day sit equally far into their bands, on whatever days, if times of day differ at all. */
  lemma {:induction false} EqualTimesAlign(times: seq<int>, r: Layout, k: nat, l: nat, i: nat, j: nat)
    requires IsLayout(Labels(times), r) && Length(SpanOf(Labels(times))) > 0
    requires i < |times| && j < |times| && times[i] % DAY_MS == times[j] % DAY_MS
    requires var groups := Groups(Labels(times), |times|);
      k < |groups| && l < |groups| && InGroup(groups[k], i) && InGroup(groups[l], j)
    ensures var w := Width(|Groups(Labels(times), |times|)|);
      r.fractions[i] - BandStart(k, w) == r.fractions[j] - BandStart(l, w)
  {
    var labels, groups := Labels(times), Groups(Labels(times), |times|);
    SameOffsets(labels, groups[k], groups[l], i, j);
    PlacedOffset(labels, r, k, i);
    PlacedOffset(labels, r, l, j);
  }

  lemma {:induction false} SameOffsets(labels: seq<Label>, g: Group, h: Group, i: nat, j: nat)
    requires InGroup(g, i) && InGroup(h, j) && i < |labels| && j < |labels|
    requires Length(SpanOf(labels)) > 0 && labels[i].tod.Some? && labels[i].tod == labels[j].tod
    ensures Offset(SpanOf(labels), labels, g, i) == Offset(SpanOf(labels), labels, h, j)
  {
    TimedFraction(labels, i);
    TimedFraction(labels, j);
  }

  lemma {:induction false} PlacedOffset(labels: seq<Label>, r: Layout, k: nat, i: nat)
    requires IsLayout(labels, r) && k < |Groups(labels, |labels|)| && InGroup(Groups(labels, |labels|)[k], i)
    requires i < |labels|
    ensures var groups := Groups(labels, |labels|); var w := Width(|groups|);
      i < |r.fractions| && r.fractions[i] - BandStart(k, w) == Offset(SpanOf(labels), labels, groups[k], i) * w
  {}

  /** The runs of points that the bands of a layout say they cover. */
  function DaysOf(bands: seq<Band>): (r: seq<Group>)
    ensures |r| == |bands|
  {
    seq(|bands|, k requires 0 <= k < |bands| => Group(bands[k].start, bands[k].end, bands[k].day))
  }

  /** A layout's bands are exactly the maximal same-day runs, in order, and there is one separator fewer. */
  lemma {:induction false} BandsAreTheDays(labels: seq<Label>, r: Layout)
    requires IsLayout(labels, r)
    ensures AreDayRuns(labels, |labels|, DaysOf(r.bands)) && |r.separators| == |r.bands| - 1
    ensures DaysOf(r.bands) == Groups(labels, |labels|)
  {
    LayoutShape(labels, r);
    GroupsAreDayRuns(labels, |labels|);
  }

  /** Each separator lies between the points of the days before it and those of the days after it. */
  lemma {:induction false} SeparatorsSeparate(labels: seq<Label>, r: Layout, k: nat, l: nat, i: nat)
    requires IsLayout(labels, r) && 1 <= k <= |r.separators|
    requires l < |r.bands| && r.bands[l].start <= i <= r.bands[l].end && i < |r.fractions|
    ensures l < k ==> r.fractions[i] <= r.separators[k - 1]
    ensures l >= k ==> r.separators[k - 1] <= r.fractions[i]
  {
    var groups := Groups(labels, |labels|);
    LayoutShape(labels, r);
    BandsHoldTheirPoints(labels, r, l, i);
    WidthPositive(|groups|);
    if l < k {
      BandsInOrder(l + 1, k, Width(|groups|));
    } else {
      BandsInOrder(k, l, Width(|groups|));
    }
  }

  /** A layout has one band for each day, and one separator before every band but the first. */
  lemma LayoutShape(labels: seq<Label>, r: Layout)
    requires IsLayout(labels, r)
    ensures var groups := Groups(labels, |labels|);
      && |r.bands| == |groups| && |r.separators| == |groups| - 1 && |r.fractions| == |labels|
      && (forall k :: 0 <= k < |groups| ==> r.bands[k] == BandAt(groups[k], k, Width(|groups|)))
      && (forall k :: 1 <= k < |groups| ==> r.separators[k - 1] == BandStart(k, Width(|groups|)))
  {
    var groups := Groups(labels, |labels|);
    ShapeUpTo(groups, |groups|, Width(|groups|));
  }

  lemma {:induction false} ShapeUpTo(groups: seq<Group>, n: nat, width: real)
    requires n <= |groups|
    ensures |BandsUpTo(groups, n, width)| == n && |SeparatorsUpTo(n, width)| == if n == 0 then 0 else n - 1
    ensures forall k :: 0 <= k < n ==> BandsUpTo(groups, n, width)[k] == BandAt(groups[k], k, width)
    ensures forall k :: 1 <= k < n ==> SeparatorsUpTo(n, width)[k - 1] == BandStart(k, width)
  {
    if n > 0 { ShapeUpTo(groups, n - 1, width); }
  }

  // ---------------------------------------------------------------- where each point sits

  /** The span runs from the earliest to the latest time of day among the labels, both attained. */
  lemma {:induction false} SpanIsAttained(labels: seq<Label>)
    ensures var s := SpanOf(labels);
      && (s.open.None? <==> forall i :: 0 <= i < |labels| ==> labels[i].tod.None?)
      && (s.open.Some? ==>
            && (exists i :: 0 <= i < |labels| && labels[i].tod == s.open)
            && (exists i :: 0 <= i < |labels| && labels[i].tod == s.close))
  {
    if labels != [] {
      var front, n := labels[..|labels| - 1], |labels| - 1;
      SpanIsAttained(front);
      var before, s := SpanOf(front), SpanOf(labels);
      if before.open.Some? {
        var i :| 0 <= i < |front| && front[i].tod == before.open;
        var j :| 0 <= j < |front| && front[j].tod == before.close;
        assert labels[i].tod == before.open && labels[j].tod == before.close;
      }
      assert labels[n].tod.None? ==> s == before;
      forall i | 0 <= i < n ensures labels[i] == front[i] {}
    }
  }

  lemma {:induction false} BandStartIs(k: nat, g: nat)
    requires g > 0
    ensures BandStart(k, Width(g)) == k as real / g as real
  {}

  lemma {:induction false} Centred(k: nat, g: nat)
    requires g > 0
    ensures 2.0 * (BandStart(k, Width(g)) + Width(g) / 2.0) == BandStart(k, Width(g)) + BandStart(k + 1, Width(g))
  {
    NextBand(k, Width(g));
  }

  /** The `k`th of `g` bands begins at k/g, where its separator stands, and is labelled in its middle. */
  lemma {:induction false} BandsAreEven(labels: seq<Label>, r: Layout, k: nat)
    requires IsLayout(labels, r) && k < |r.bands|
    ensures var g := |r.bands|;
      && 2.0 * r.bands[k].center == k as real / g as real + (k + 1) as real / g as real
      && (k > 0 ==> k <= |r.separators| && r.separators[k - 1] == k as real / g as real)
  {
    LayoutShape(labels, r);
    BandStartIs(k, |r.bands|);
    BandStartIs(k + 1, |r.bands|);
    Centred(k, |r.bands|);
  }

  /** `x` is the part `n` of `of` equal ones of the `k`th of `g` bands. */
  predicate PlacedAt(x: real, k: nat, g: nat, n: int, of: int) {
    ((x * g as real) - k as real) * of as real == n as real
  }

  lemma {:induction false} PlaceOfPart(k: nat, g: nat, n: int, of: int)
    requires g > 0 && of > 0
    ensures PlacedAt(Place(k, n as real / of as real, Width(g)), k, g, n, of)
  {
    var f := n as real / of as real;
    InBandUnits(k, f, g);
    assert f * of as real == n as real;
  }

  lemma {:induction false} InBandUnits(k: nat, f: real, g: nat)
    requires g > 0
    ensures Place(k, f, Width(g)) * g as real - k as real == f
  {
    var w := Width(g);
    assert w * g as real == 1.0;
    Spread(k as real, f, w, g as real);
  }

  lemma {:induction false} Spread(k: real, f: real, w: real, g: real)
    requires w * g == 1.0
    ensures (k * w + f * w) * g == k + f
  {
    assert (k * w + f * w) * g == k * (w * g) + f * (w * g);
  }

  /**
   * A point with a time of day sits in its band as far as that time lies between the earliest and the
   * latest one; so the earliest is at the band's start and the latest at its end.
   */
  lemma {:induction false} TimesArePlaced(labels: seq<Label>, r: Layout, k: nat, i: nat, open: int, close: int)
    requires IsLayout(labels, r) && k < |r.bands| && r.bands[k].start <= i <= r.bands[k].end && i < |labels|
    requires SpanOf(labels) == Span(Some(open), Some(close)) && open < close && labels[i].tod.Some? && i < |r.fractions|
    ensures PlacedAt(r.fractions[i], k, |r.bands|, labels[i].tod.value - open, close - open)
  {
    LayoutShape(labels, r);
    TimedFraction(labels, i);
    PlaceOfPart(k, |r.bands|, labels[i].tod.value - open, close - open);
  }

  /** A point without one, or of a chart whose times do not differ, sits evenly by its place in the day. */
  lemma {:induction false} OthersAreSpaced(labels: seq<Label>, r: Layout, k: nat, i: nat)
    requires IsLayout(labels, r) && k < |r.bands| && r.bands[k].start <= i <= r.bands[k].end && i < |labels|
    requires labels[i].tod.None? || SpanOf(labels).open == SpanOf(labels).close
    requires i < |r.fractions|
    ensures var start, end := r.bands[k].start, r.bands[k].end;
      if start == end then PlacedAt(r.fractions[i], k, |r.bands|, 1, 2)
      else PlacedAt(r.fractions[i], k, |r.bands|, i - start, end - start)
  {
    LayoutShape(labels, r);
    var start, end := r.bands[k].start, r.bands[k].end;
    if start == end {
      assert 1 as real / 2 as real == 0.5;
      PlaceOfPart(k, |r.bands|, 1, 2);
    } else {
      PlaceOfPart(k, |r.bands|, i - start, end - start);
    }
  }
}

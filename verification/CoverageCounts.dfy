/**
 * What the coverage counts count, in terms of the lists, the quotes and the clock alone, and what that
 * makes of the buckets of the summary.
 */
module CoverageCounts {
  import opened Prelude
  import opened Coverage

  // ---------------------------------------------------------------- properties of a listed symbol

  /** Market holdings are whatever is no NAV fund. */
  predicate Market(c: Context, s: string) { s !in c.nav }

  predicate Priced(c: Context, s: string) { s in c.quotes && c.quotes[s].priced }

  /** Observed no later than now and no longer ago than the live window. */
  predicate ObservedWithin(c: Context, s: string) {
    s in c.quotes && c.quotes[s].at.Some? && c.now - c.windowMs <= c.quotes[s].at.value <= c.now
  }

  /** Fetched in this round, or priced within the live window of an open session. */
  predicate IsLive(c: Context, l: Lists, s: string) {
    Market(c, s) && (s in l.fetched || (c.marketOpen && Priced(c, s) && ObservedWithin(c, s)))
  }

  /** Priced, not live, and waiting its turn in this round. */
  predicate IsUpdating(c: Context, l: Lists, s: string) {
    Market(c, s) && Priced(c, s) && !IsLive(c, l, s) && s in l.deferred
  }

  predicate IsCached(c: Context, l: Lists, s: string) {
    Market(c, s) && Priced(c, s) && !IsLive(c, l, s) && s !in l.deferred
  }

  predicate IsAtClose(c: Context, s: string) { Market(c, s) && s in c.quotes && c.quotes[s].atClose }

  /** Held at a value date, if any. */
  predicate DatedFrom(c: Context, s: string, day: int) {
    s in c.quotes && c.quotes[s].valueDate.Some? && c.quotes[s].valueDate.value >= day
  }

  /** A NAV fund behind the latest settled session. */
  predicate IsAwaiting(c: Context, s: string) { s in c.nav && !DatedFrom(c, s, c.settled) }

  /** A NAV fund that is not, but behind the session that has started and is open. */
  predicate IsExpected(c: Context, s: string) {
    s in c.nav && DatedFrom(c, s, c.settled) && c.marketOpen && !DatedFrom(c, s, c.started)
  }

  // ---------------------------------------------------------------- counting

  /** How many of the listed positions hold a symbol with the property. */
  ghost function Positions(symbols: seq<string>, p: string -> bool): set<nat> {
    set i: nat | i < |symbols| && p(symbols[i])
  }

  lemma {:induction false} PositionsSnoc(symbols: seq<string>, p: string -> bool)
    requires symbols != []
    ensures var n := |symbols| - 1;
      |Positions(symbols, p)| == |Positions(symbols[..n], p)| + if p(symbols[n]) then 1 else 0
  {
    var n := |symbols| - 1;
    var before := Positions(symbols[..n], p);
    assert forall i: nat :: i in before ==> i < n;
    assert forall i: nat :: i < n ==> symbols[..n][i] == symbols[i];
    if p(symbols[n]) {
      assert Positions(symbols, p) == before + {n};
    } else {
      assert Positions(symbols, p) == before;
    }
  }

  lemma {:induction false} NoPositions(p: string -> bool)
    ensures Positions([], p) == {}
  {}

  ghost predicate MarketCounts(f: Facts, c: Context, l: Lists, symbols: seq<string>) {
    && f.marketTotal == |Positions(symbols, s => Market(c, s))|
    && f.marketHeld == |Positions(symbols, s => Market(c, s) && Priced(c, s))|
    && f.marketFresh == |Positions(symbols, s => IsLive(c, l, s))|
    && f.marketUpdating == |Positions(symbols, s => IsUpdating(c, l, s))|
    && f.marketAtClose == |Positions(symbols, s => IsAtClose(c, s))|
  }

  ghost predicate NavCounts(f: Facts, c: Context, symbols: seq<string>) {
    && f.navTotal == |Positions(symbols, s => s in c.nav)|
    && f.navAwaiting == |Positions(symbols, s => IsAwaiting(c, s))|
    && f.navExpectedTonight == |Positions(symbols, s => IsExpected(c, s))|
  }

  /** Each count is the number of listed positions with its property. */
  lemma {:induction false} CountsMean(c: Context, l: Lists, symbols: seq<string>)
    ensures MarketCounts(FactsOf(c, l, symbols), c, l, symbols)
    ensures NavCounts(FactsOf(c, l, symbols), c, symbols)
  {
    if symbols == [] {
      NoPositions(s => Market(c, s));
      NoPositions(s => Market(c, s) && Priced(c, s));
      NoPositions(s => IsLive(c, l, s));
      NoPositions(s => IsUpdating(c, l, s));
      NoPositions(s => IsAtClose(c, s));
      NoPositions(s => s in c.nav);
      NoPositions(s => IsAwaiting(c, s));
      NoPositions(s => IsExpected(c, s));
    } else {
      var n := |symbols| - 1;
      CountsMean(c, l, symbols[..n]);
      MarketSnoc(FactsOf(c, l, symbols[..n]), c, l, symbols);
      NavSnoc(FactsOf(c, l, symbols[..n]), c, l, symbols);
    }
  }

  lemma {:induction false} MarketSnoc(f: Facts, c: Context, l: Lists, symbols: seq<string>)
    requires symbols != [] && MarketCounts(f, c, l, symbols[..|symbols| - 1])
    ensures MarketCounts(Counted(f, c, l, symbols[|symbols| - 1]), c, l, symbols)
  {
    PositionsSnoc(symbols, s => Market(c, s));
    PositionsSnoc(symbols, s => Market(c, s) && Priced(c, s));
    PositionsSnoc(symbols, s => IsLive(c, l, s));
    PositionsSnoc(symbols, s => IsUpdating(c, l, s));
    PositionsSnoc(symbols, s => IsAtClose(c, s));
  }

  lemma {:induction false} NavSnoc(f: Facts, c: Context, l: Lists, symbols: seq<string>)
    requires symbols != [] && NavCounts(f, c, symbols[..|symbols| - 1])
    ensures NavCounts(Counted(f, c, l, symbols[|symbols| - 1]), c, symbols)
  {
    PositionsSnoc(symbols, s => s in c.nav);
    PositionsSnoc(symbols, s => IsAwaiting(c, s));
    PositionsSnoc(symbols, s => IsExpected(c, s));
  }

  // ---------------------------------------------------------------- the summary

  lemma {:induction false} CountsAdd(symbols: seq<string>, p: string -> bool, q: string -> bool, r: string -> bool)
    requires forall s :: p(s) <==> q(s) || r(s)
    requires forall s :: !(q(s) && r(s))
    ensures |Positions(symbols, p)| == |Positions(symbols, q)| + |Positions(symbols, r)|
  {
    assert Positions(symbols, p) == Positions(symbols, q) + Positions(symbols, r);
    assert Positions(symbols, q) !! Positions(symbols, r);
  }

  /** Market holdings split into live, updating, cached and unpriced ones, if every fetched one has a price. */
  lemma {:induction false} HeldSplits(c: Context, l: Lists, symbols: seq<string>)
    requires forall s :: s in l.fetched && Market(c, s) ==> Priced(c, s)
    ensures |Positions(symbols, s => Market(c, s) && Priced(c, s))|
            == |Positions(symbols, s => IsLive(c, l, s))| + |Positions(symbols, s => IsUpdating(c, l, s))|
               + |Positions(symbols, s => IsCached(c, l, s))|
    ensures |Positions(symbols, s => Market(c, s))|
            == |Positions(symbols, s => Market(c, s) && Priced(c, s))|
               + |Positions(symbols, s => Market(c, s) && !Priced(c, s))|
  {
    CountsAdd(symbols, s => Market(c, s) && Priced(c, s), s => IsLive(c, l, s), s => IsIdle(c, l, s));
    CountsAdd(symbols, s => IsIdle(c, l, s), s => IsUpdating(c, l, s), s => IsCached(c, l, s));
    CountsAdd(symbols, s => Market(c, s), s => Market(c, s) && Priced(c, s), s => Market(c, s) && !Priced(c, s));
  }

  predicate IsIdle(c: Context, l: Lists, s: string) { Market(c, s) && Priced(c, s) && !IsLive(c, l, s) }

  /**
   * The four buckets of the open-market summary, when every fetched market symbol has a price: the live
   * holdings, the idle ones that are deferred, the other idle ones, and those without a price.
   */
  lemma {:induction false} BucketsMean(c: Context, l: Lists)
    requires forall s :: s in l.fetched && Market(c, s) ==> Priced(c, s)
    ensures var b, symbols := BucketsOf(FactsOf(c, l, Symbols(l))), Symbols(l);
      && b.live == |Positions(symbols, s => IsLive(c, l, s))|
      && b.updating == |Positions(symbols, s => IsUpdating(c, l, s))|
      && b.cached == |Positions(symbols, s => IsCached(c, l, s))|
      && b.missing == |Positions(symbols, s => Market(c, s) && !Priced(c, s))|
  {
    CountsMean(c, l, Symbols(l));
    HeldSplits(c, l, Symbols(l));
  }
}

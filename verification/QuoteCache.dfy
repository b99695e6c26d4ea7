/**
 * Priming the quote cache of web/src/cache.ts from graph bars and from the export.
 *
 * Prices are the decimal strings the cache stores.  The market calendar is a parameter.
 */
module QuoteCache {
  import opened Prelude

  datatype Bar = Bar(t: int, value: string)

  datatype StoredQuote = StoredQuote(price: Option<string>, previousClose: Option<string>, currency: Option<string>,
                                     at: int, priceTime: Option<int>, valueDate: Option<string>,
                                     marketOpen: Option<bool>)

  datatype Seed = Seed(symbol: string, price: string, previousClose: Option<string>, currency: string, strikeMs: int,
                       valueDate: Option<string>, marketOpen: Option<bool>)

  datatype Calendar = Calendar(isoDay: int -> string, exchangeDay: int -> string, marketOpen: int -> bool)

  /** One symbol's bars in a batch, with the caller's currency for it and whether it is a NAV fund. */
  datatype Offer =
    | Bars(symbol: string, bars: seq<Bar>, currency: Option<string>, nav: bool, now: int)
    | Export(seed: Seed)

  type File = map<string, StoredQuote>

  function LatestBar(bars: seq<Bar>): (r: Option<Bar>)
    ensures r.None? <==> bars == []
    ensures r.Some? ==> r.value in bars && forall b :: b in bars ==> b.t <= r.value.t
  {
    if bars == [] then None
    else
      var before := LatestBar(bars[..|bars| - 1]);
      var last := bars[|bars| - 1];
      assert bars == bars[..|bars| - 1] + [last];
      if before.None? || last.t > before.value.t then Some(last) else before
  }

  /** `existing.priceTime ?? existing.at`. */
  function Instant(q: StoredQuote): int {
    if q.priceTime.Some? then q.priceTime.value else q.at
  }

  function Lookup(f: File, s: string): Option<StoredQuote> {
    if s in f then Some(f[s]) else None
  }

  function OrElse<T>(a: Option<T>, b: Option<T>): Option<T> {
    if a.Some? then a else b
  }

  function PrimedByBar(q: Option<StoredQuote>, latest: Bar, currency: string, nav: bool, now: int, c: Calendar)
    : StoredQuote
  {
    StoredQuote(Some(latest.value), if q.Some? then q.value.previousClose else None, Some(currency),
                now, Some(latest.t),
                Some(if nav then c.isoDay(latest.t) else c.exchangeDay(latest.t)),
                Some(if nav then false else c.marketOpen(latest.t)))
  }

  /** What one symbol's bars do to its entry; `None` leaves the entry as it is. */
  function PrimeFromBars(q: Option<StoredQuote>, o: Offer, c: Calendar): Option<StoredQuote>
    requires o.Bars?
  {
    var latest := LatestBar(o.bars);
    if latest.None? then None
    else if q.Some? && latest.value.t <= Instant(q.value) then
      if latest.value.t == Instant(q.value) && o.now > q.value.at then Some(q.value.(at := o.now)) else None
    else
      var currency := OrElse(if q.Some? then q.value.currency else None, o.currency);
      if currency.None? then None
      else Some(PrimedByBar(q, latest.value, currency.value, o.nav, o.now, c))
  }

  function PrimeFromSeed(q: Option<StoredQuote>, s: Seed): Option<StoredQuote> {
    if s.symbol == "" || (q.Some? && s.strikeMs <= Instant(q.value)) then None
    else Some(StoredQuote(Some(s.price), s.previousClose, Some(s.currency), s.strikeMs, Some(s.strikeMs), s.valueDate,
                          s.marketOpen))
  }

  function SymbolOf(o: Offer): string {
    if o.Bars? then o.symbol else o.seed.symbol
  }

  function Outcome(f: File, o: Offer, c: Calendar): Option<StoredQuote> {
    if o.Bars? then PrimeFromBars(Lookup(f, o.symbol), o, c) else PrimeFromSeed(Lookup(f, o.seed.symbol), o.seed)
  }

  function Apply(f: File, o: Offer, c: Calendar): File {
    var q := Outcome(f, o, c);
    if q.None? then f else f[SymbolOf(o) := q.value]
  }

  function Run(f: File, offers: seq<Offer>, c: Calendar): File {
    if offers == [] then f else Apply(Run(f, offers[..|offers| - 1], c), offers[|offers| - 1], c)
  }

  function Primed(f: File, offers: seq<Offer>, c: Calendar): seq<string> {
    if offers == [] then []
    else
      var before := offers[..|offers| - 1];
      var last := offers[|offers| - 1];
      Primed(f, before, c) + if Outcome(Run(f, before, c), last, c).Some? then [SymbolOf(last)] else []
  }

  class QuoteStore {
    var file: File
    const calendar: Calendar

    constructor (c: Calendar)
      ensures file == map[] && calendar == c
    {
      file, calendar := map[], c;
    }

    method FindLatest(bars: seq<Bar>) returns (best: Option<Bar>)
      ensures best == LatestBar(bars)
    {
      best := None;
      for i := 0 to |bars|
        invariant best == LatestBar(bars[..i])
      {
        assert bars[..i + 1][..i] == bars[..i];
        if best.None? || bars[i].t > best.value.t { best := Some(bars[i]); }
      }
      assert bars[..|bars|] == bars;
    }

    /** One turn of the loop of `primeQuotesFromBars`. */
    method PrimeSymbol(f: File, o: Offer) returns (r: File, primed: bool)
      requires o.Bars?
      ensures r == Apply(f, o, calendar) && primed == Outcome(f, o, calendar).Some?
    {
      r, primed := f, false;
      var latest := FindLatest(o.bars);
      if latest.None? { return; }
      var existing := Lookup(f, o.symbol);
      if existing.Some? && latest.value.t <= Instant(existing.value) {
        if latest.value.t == Instant(existing.value) && o.now > existing.value.at {
          r, primed := f[o.symbol := existing.value.(at := o.now)], true;
        }
        return;
      }
      var currency := o.currency;
      if existing.Some? && existing.value.currency.Some? { currency := existing.value.currency; }
      if currency.None? { return; }
      r, primed := f[o.symbol := PrimedByBar(existing, latest.value, currency.value, o.nav, o.now, calendar)], true;
    }

    method PrimeQuotesFromBars(batch: seq<Offer>) returns (primed: seq<string>)
      requires forall o :: o in batch ==> o.Bars?
      modifies this
      ensures file == Run(old(file), batch, calendar)
      ensures primed == Primed(old(file), batch, calendar)
    {
      primed := [];
      var f := file;
      for i := 0 to |batch|
        invariant file == old(file)
        invariant f == Run(file, batch[..i], calendar) && primed == Primed(file, batch[..i], calendar)
        invariant primed == [] ==> f == file
      {
        assert batch[..i + 1][..i] == batch[..i];
        var hit;
        f, hit := PrimeSymbol(f, batch[i]);
        if hit { primed := primed + [batch[i].symbol]; }
      }
      assert batch[..|batch|] == batch;
      if |primed| > 0 { file := f; }
    }

    method PrimeQuotesFromExport(seeds: seq<Offer>) returns (primed: seq<string>)
      requires forall o :: o in seeds ==> o.Export?
      modifies this
      ensures file == Run(old(file), seeds, calendar)
      ensures primed == Primed(old(file), seeds, calendar)
    {
      primed := [];
      var f := file;
      for i := 0 to |seeds|
        invariant file == old(file)
        invariant f == Run(file, seeds[..i], calendar) && primed == Primed(file, seeds[..i], calendar)
        invariant primed == [] ==> f == file
      {
        assert seeds[..i + 1][..i] == seeds[..i];
        var seed := seeds[i].seed;
        var q := PrimeFromSeed(Lookup(f, seed.symbol), seed);
        if q.Some? {
          f := f[seed.symbol := q.value];
          primed := primed + [seed.symbol];
        }
      }
      assert seeds[..|seeds|] == seeds;
      if |primed| > 0 { file := f; }
    }
  }

  // ---------------------------------------------------------------- the register

  /** The instant and price an offer puts forward for a symbol, if any. */
  function Bid(o: Offer, s: string): Option<(int, string)> {
    if SymbolOf(o) != s || s == "" then None
    else if o.Export? then Some((o.seed.strikeMs, o.seed.price))
    else if LatestBar(o.bars).Some? then Some((LatestBar(o.bars).value.t, LatestBar(o.bars).value.value))
    else None
  }

  /** A price that was held at the start or offered since. */
  ghost predicate Candidate(f: File, offers: seq<Offer>, s: string, bid: (int, string)) {
    || (s in f && bid.0 == Instant(f[s]) && Some(bid.1) == f[s].price)
    || exists k :: 0 <= k < |offers| && Bid(offers[k], s) == Some(bid)
  }

  /** An entry that says when its price was struck. */
  predicate Stamped(q: StoredQuote) {
    q.priceTime.Some? && q.price.Some?
  }

  /** The symbol's entry, if any, is stamped, and its currency is known to the cache or to every bar offer. */
  ghost predicate Denominated(f: File, offers: seq<Offer>, s: string) {
    && s != ""
    && (s in f ==> Stamped(f[s]))
    && ((s in f && f[s].currency.Some?)
        || forall k :: 0 <= k < |offers| && offers[k].Bars? && offers[k].symbol == s ==> offers[k].currency.Some?)
  }

  /** The register after some offers holds the latest candidate. */
  ghost predicate HoldsLatest(f: File, offers: seq<Offer>, s: string, now: File) {
    && (s in now <==> s in f || exists k :: 0 <= k < |offers| && Bid(offers[k], s).Some?)
    && (s in now ==>
          && Stamped(now[s])
          && Candidate(f, offers, s, (Instant(now[s]), now[s].price.value))
          && (s in f ==> Instant(f[s]) <= Instant(now[s]))
          && (forall k :: 0 <= k < |offers| && Bid(offers[k], s).Some? ==> Bid(offers[k], s).value.0 <= Instant(now[s]))
          && (s in f && f[s].currency.Some? ==> now[s].currency.Some?))
  }

  /** An offer for a symbol moves its entry to the bid if the bid is later, and otherwise keeps instant and price. */
  lemma OfferMovesForward(g: File, o: Offer, s: string, c: Calendar)
    requires s != "" && (s in g ==> Stamped(g[s]))
    requires (s in g && g[s].currency.Some?) || (o.Bars? && o.symbol == s ==> o.currency.Some?)
    ensures var h, bid := Apply(g, o, c), Bid(o, s);
      && (s in h <==> s in g || bid.Some?)
      && (s in h ==> Stamped(h[s]))
      && (s in h && (s !in g || (bid.Some? && bid.value.0 > Instant(g[s]))) ==>
            bid.Some? && (Instant(h[s]), h[s].price.value) == bid.value)
      && (s in g && (bid.None? || bid.value.0 <= Instant(g[s])) ==>
            Instant(h[s]) == Instant(g[s]) && h[s].price == g[s].price)
      && (s in g && g[s].currency.Some? ==> h[s].currency.Some?)
  {
    if SymbolOf(o) == s {
      if o.Bars? {
        var latest := LatestBar(o.bars);
      }
    }
  }

  lemma CandidateSnoc(f: File, offers: seq<Offer>, o: Offer, s: string, bid: (int, string))
    ensures Candidate(f, offers, s, bid) ==> Candidate(f, offers + [o], s, bid)
    ensures Bid(o, s) == Some(bid) ==> Candidate(f, offers + [o], s, bid)
  {
    var all := offers + [o];
    assert all[|offers|] == o;
    if exists k :: 0 <= k < |offers| && Bid(offers[k], s) == Some(bid) {
      var k :| 0 <= k < |offers| && Bid(offers[k], s) == Some(bid);
      assert all[k] == offers[k];
    }
  }

  lemma HoldsLatestSnoc(f: File, offers: seq<Offer>, o: Offer, s: string, g: File, c: Calendar)
    requires Denominated(f, offers + [o], s) && HoldsLatest(f, offers, s, g)
    ensures HoldsLatest(f, offers + [o], s, Apply(g, o, c))
  {
    var all, h := offers + [o], Apply(g, o, c);
    assert all[|offers|] == o && forall k :: 0 <= k < |offers| ==> all[k] == offers[k];
    OfferMovesForward(g, o, s, c);
    if s in h {
      CandidateSnoc(f, offers, o, s, (Instant(h[s]), h[s].price.value));
    }
    assert (exists k :: 0 <= k < |all| && Bid(all[k], s).Some?)
      <==> (exists k :: 0 <= k < |offers| && Bid(offers[k], s).Some?) || Bid(o, s).Some?;
  }

  /**
   * After any sequence of bar batches and export seeds, a symbol whose entry is stamped or absent
   * holds the latest instant among its initial one and all offered, at a price held or offered then.
   */
  lemma {:induction false} RegisterHoldsLatest(f: File, offers: seq<Offer>, s: string, c: Calendar)
    requires Denominated(f, offers, s)
    ensures HoldsLatest(f, offers, s, Run(f, offers, c))
  {
    if offers != [] {
      var front, o := offers[..|offers| - 1], offers[|offers| - 1];
      assert offers == front + [o];
      RegisterHoldsLatest(f, front, s, c);
      HoldsLatestSnoc(f, front, o, s, Run(f, front, c), c);
    }
  }

  /** Bids for the symbol that tie in time agree on the price. */
  ghost predicate Unambiguous(f: File, offers: seq<Offer>, s: string) {
    forall a, b :: Candidate(f, offers, s, a) && Candidate(f, offers, s, b) && a.0 == b.0 ==> a.1 == b.1
  }

  lemma CandidatesPermute(f: File, a: seq<Offer>, b: seq<Offer>, s: string, bid: (int, string))
    requires multiset(a) == multiset(b)
    requires Candidate(f, a, s, bid)
    ensures Candidate(f, b, s, bid)
  {
    if k :| 0 <= k < |a| && Bid(a[k], s) == Some(bid) {
      assert a[k] in multiset(b);
      var j :| 0 <= j < |b| && b[j] == a[k];
    }
  }

  /**
   * Order does not matter: any two orders of the same offers leave the same price struck at the same
   * instant, provided bids that tie in time agree.
   */
  lemma {:induction false} PrimingIsOrderIndependent(f: File, a: seq<Offer>, b: seq<Offer>, s: string, c: Calendar)
    requires multiset(a) == multiset(b) && Denominated(f, a, s) && Unambiguous(f, a, s)
    ensures s in Run(f, a, c) <==> s in Run(f, b, c)
    ensures s in Run(f, a, c) ==>
      && Run(f, a, c)[s].price == Run(f, b, c)[s].price
      && Instant(Run(f, a, c)[s]) == Instant(Run(f, b, c)[s])
  {
    var x, y := Run(f, a, c), Run(f, b, c);
    DenominatedPermutes(f, a, b, s);
    RegisterHoldsLatest(f, a, s, c);
    RegisterHoldsLatest(f, b, s, c);
    SomeBidPermutes(a, b, s);
    SomeBidPermutes(b, a, s);
    if s in x {
      var p, q := (Instant(x[s]), x[s].price.value), (Instant(y[s]), y[s].price.value);
      CandidatesPermute(f, b, a, s, q);
      CandidatesPermute(f, a, b, s, p);
      LatestIsUpperBound(f, a, s, x, q);
      LatestIsUpperBound(f, b, s, y, p);
    }
  }

  lemma {:induction false} DenominatedPermutes(f: File, a: seq<Offer>, b: seq<Offer>, s: string)
    requires multiset(a) == multiset(b) && Denominated(f, a, s)
    ensures Denominated(f, b, s)
  {
    assert forall k :: 0 <= k < |b| ==> b[k] in multiset(a);
  }

  lemma SomeBidPermutes(a: seq<Offer>, b: seq<Offer>, s: string)
    requires multiset(a) == multiset(b)
    ensures (exists k :: 0 <= k < |a| && Bid(a[k], s).Some?) ==> exists k :: 0 <= k < |b| && Bid(b[k], s).Some?
  {
    if k :| 0 <= k < |a| && Bid(a[k], s).Some? {
      assert a[k] in multiset(b);
      var j :| 0 <= j < |b| && b[j] == a[k];
    }
  }

  lemma LatestIsUpperBound(f: File, offers: seq<Offer>, s: string, now: File, bid: (int, string))
    requires HoldsLatest(f, offers, s, now) && s in now && Candidate(f, offers, s, bid)
    ensures bid.0 <= Instant(now[s])
  {}

  /**
   * The stamp is exactly what order independence needs: for an entry without one, a bar struck at the
   * entry's own fetch time moves that time forward and so shuts out a later bar that would otherwise win.
   */
  lemma UnstampedIsOrderDependent(f: File, s: string, price: string, c: Calendar)
    requires s in f && f[s].priceTime.None? && f[s].currency.Some? && f[s].price != Some(price)
    ensures var at := f[s].at;
      var touch := Bars(s, [Bar(at, price)], None, false, at + 2);
      var later := Bars(s, [Bar(at + 1, price)], None, false, at + 3);
      && s in Run(f, [touch, later], c) && Run(f, [touch, later], c)[s].price == f[s].price
      && s in Run(f, [later, touch], c) && Run(f, [later, touch], c)[s].price == Some(price)
  {
    var at := f[s].at;
    var touch := Bars(s, [Bar(at, price)], None, false, at + 2);
    var later := Bars(s, [Bar(at + 1, price)], None, false, at + 3);
    assert [touch, later][..1] == [touch] && [later, touch][..1] == [later] && [touch][..0] == [] && [later][..0] == [];
    assert LatestBar([Bar(at, price)]) == Some(Bar(at, price));
    assert LatestBar([Bar(at + 1, price)]) == Some(Bar(at + 1, price));
    assert Run(f, [touch], c) == Apply(f, touch, c);
    assert Run(f, [later], c) == Apply(f, later, c);
  }

  // ---------------------------------------------------------------- what an offer leaves behind

  /** The bar at `i` is the first of the newest bars. */
  ghost predicate FirstNewestAt(bars: seq<Bar>, i: nat) {
    && i < |bars|
    && (forall j :: 0 <= j < i ==> bars[j].t < bars[i].t)
    && (forall j :: i < j < |bars| ==> bars[j].t <= bars[i].t)
  }

  ghost predicate FirstNewest(bars: seq<Bar>, latest: Bar) {
    exists i: nat :: FirstNewestAt(bars, i) && bars[i] == latest
  }

  lemma {:induction false} LatestIsFirstNewest(bars: seq<Bar>) returns (i: nat)
    requires bars != []
    ensures FirstNewestAt(bars, i) && LatestBar(bars) == Some(bars[i])
  {
    var front, n := bars[..|bars| - 1], |bars| - 1;
    if front == [] {
      i := n;
    } else {
      i := LatestIsFirstNewest(front);
      assert forall j :: 0 <= j < n ==> bars[j] == front[j];
      if bars[n].t > front[i].t { i := n; }
    }
  }

  lemma {:induction false} SoleFirstNewest(bars: seq<Bar>, latest: Bar)
    requires FirstNewest(bars, latest)
    ensures LatestBar(bars) == Some(latest)
  {
    var i: nat :| FirstNewestAt(bars, i) && bars[i] == latest;
    var k := LatestIsFirstNewest(bars);
    SameFirst(bars, i, k);
  }

  lemma {:induction false} SameFirst(bars: seq<Bar>, i: nat, k: nat)
    requires FirstNewestAt(bars, i) && FirstNewestAt(bars, k)
    ensures i == k
  {
    var x, y := bars[i], bars[k];
  }

  /**
   * The entry that newer bars leave: the newest bar's value and instant, fetched now, in the currency
   * known of the entry or else the caller's, with the close before it kept; a NAV fund's is a settled
   * close of its bar's day, any other's carries the exchange's day and whether the market was open then.
   */
  lemma {:induction false} BarLeaves(f: File, o: Offer, latest: Bar, c: Calendar)
    requires o.Bars? && FirstNewest(o.bars, latest)
    requires o.symbol in f ==> latest.t > Instant(f[o.symbol])
    requires (o.symbol in f && f[o.symbol].currency.Some?) || o.currency.Some?
    ensures var g := Apply(f, o, c);
      && o.symbol in g && (forall s :: s != o.symbol ==> Lookup(g, s) == Lookup(f, s))
      && var q := g[o.symbol];
         && q.price == Some(latest.value) && q.priceTime == Some(latest.t) && q.at == o.now
         && q.currency == (if o.symbol in f && f[o.symbol].currency.Some? then f[o.symbol].currency else o.currency)
         && q.previousClose == (if o.symbol in f then f[o.symbol].previousClose else None)
         && (o.nav ==> q.valueDate == Some(c.isoDay(latest.t)) && q.marketOpen == Some(false))
         && (!o.nav ==> q.valueDate == Some(c.exchangeDay(latest.t)) && q.marketOpen == Some(c.marketOpen(latest.t)))
  {
    SoleFirstNewest(o.bars, latest);
  }

  /** A bar struck at the entry's own instant only renews its fetch time, and never back. */
  lemma {:induction false} SameBarTouches(f: File, o: Offer, latest: Bar, c: Calendar)
    requires o.Bars? && FirstNewest(o.bars, latest) && o.symbol in f
    requires latest.t == Instant(f[o.symbol])
    ensures Apply(f, o, c) == if o.now > f[o.symbol].at then f[o.symbol := f[o.symbol].(at := o.now)] else f
  {
    SoleFirstNewest(o.bars, latest);
  }

  /** The entry that a newer seed leaves is the seed's, struck and fetched at its own instant. */
  lemma {:induction false} SeedLeaves(f: File, o: Offer, c: Calendar)
    requires o.Export? && o.seed.symbol != ""
    requires o.seed.symbol in f ==> o.seed.strikeMs > Instant(f[o.seed.symbol])
    ensures var g, d := Apply(f, o, c), o.seed;
      && d.symbol in g && (forall s :: s != d.symbol ==> Lookup(g, s) == Lookup(f, s))
      && var q := g[d.symbol];
         && q.price == Some(d.price) && q.currency == Some(d.currency) && q.previousClose == d.previousClose
         && q.at == d.strikeMs && q.priceTime == Some(d.strikeMs)
         && q.valueDate == d.valueDate && q.marketOpen == d.marketOpen
  {}

  /** A seed is passed over exactly if it names no symbol or the entry is as recent as its strike. */
  lemma {:induction false} SeedPassedOver(f: File, o: Offer, c: Calendar)
    requires o.Export?
    ensures var d, q := o.seed, Lookup(f, o.seed.symbol);
      Primed(f, [o], c) == [] <==>
        || d.symbol == ""
        || (q.Some? && q.value.priceTime.Some? && d.strikeMs <= q.value.priceTime.value)
        || (q.Some? && q.value.priceTime.None? && d.strikeMs <= q.value.at)
    ensures Primed(f, [o], c) == [] ==> Apply(f, o, c) == f
  {
    assert [o][..0] == [];
  }

  /** Bars are passed over exactly if there are none, none is as recent as the entry, or no currency is known. */
  lemma {:induction false} BarsPassedOver(f: File, o: Offer, c: Calendar)
    requires o.Bars?
    ensures Primed(f, [o], c) == [] <==>
      || o.bars == []
      || (o.symbol in f && (forall b :: b in o.bars ==> b.t < Instant(f[o.symbol])))
      || (o.symbol in f && (forall b :: b in o.bars ==> b.t <= Instant(f[o.symbol])) && o.now <= f[o.symbol].at)
      || ((o.symbol in f ==> exists b :: b in o.bars && b.t > Instant(f[o.symbol]))
          && (o.symbol in f ==> f[o.symbol].currency.None?) && o.currency.None?)
    ensures Primed(f, [o], c) == [] ==> Apply(f, o, c) == f
  {
    assert [o][..0] == [];
    if o.bars != [] {
      var i := LatestIsFirstNewest(o.bars);
      assert o.bars[i] in o.bars;
    }
  }
}

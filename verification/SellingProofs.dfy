/** What a rebalance that may sell spends: exactly, and by how much it can go over the cash. */
module SellingProofs {
  import opened Prelude
  import opened Sums
  import opened Rounding
  import opened Allocation
  import opened AllocationProofs
  import opened RebalanceProofs

  /** The purchases that `noBuy` cancels. */
  function Cancelled(b: Book): (r: Amounts)
    ensures forall s :: s in r <==> s in b.symbols
  {
    map s | s in b.symbols :: if s in b.noBuy then Max(0.0, At(b.target, s) - At(b.current, s)) else 0.0
  }

  /** How far the target values exceed today's value plus the cash; weights may miss 100 by 0.01. */
  function Excess(cash: real, weights: Table, values: Amounts): real {
    var total := Sum(values, weights.keys) + cash;
    TargetOf(total, Sum(weights.at, weights.keys)) - total
  }

  lemma TargetScales(total: real, w: real)
    ensures TargetOf(total, w) == (total / 100.0) * w
  {}

  lemma TargetsSum(symbols: seq<string>, weights: Amounts, total: real)
    ensures Sum(TargetMap(symbols, weights, total), symbols) == TargetOf(total, Sum(weights, symbols))
  {
    forall s | s in symbols ensures At(TargetMap(symbols, weights, total), s) == (total / 100.0) * At(weights, s) {
      TargetScales(total, At(weights, s));
    }
    SumScaled(TargetMap(symbols, weights, total), weights, total / 100.0, symbols);
    TargetScales(total, Sum(weights, symbols));
  }

  /** The raw amounts move every fund to its target, but for the cancelled purchases. */
  lemma SellsReachTargets(b: Book)
    ensures Sum(WithSells(b), b.symbols) + Sum(Cancelled(b), b.symbols)
            == Sum(b.target, b.symbols) - Sum(b.current, b.symbols)
  {
    var reached: Amounts := map s | s in b.symbols :: At(WithSells(b), s) + At(Cancelled(b), s);
    SumAdd(reached, WithSells(b), Cancelled(b), b.symbols);
    SumAdd(b.target, reached, b.current, b.symbols);
  }

  lemma SellsSpend(cash: real, weights: Table, values: Amounts, o: Options)
    ensures var b := BookOf(cash, weights, values, o);
      Sum(WithSells(b), b.symbols) == cash + Excess(cash, weights, values) - Sum(Cancelled(b), b.symbols)
  {
    var b := BookOf(cash, weights, values, o);
    SellsReachTargets(b);
    TargetsSum(weights.keys, weights.at, Sum(values, weights.keys) + cash);
    SumSame(b.current, values, weights.keys);
  }

  /**
   * What a plan with sells books, to the cent: the cash, plus what the weights promise beyond 100, less
   * the cancelled purchases and what rounding to whole shares leaves unspent, a cut sale counting as
   * negative.  So the rows and the residual add up to the cash if and only if the excess is covered by
   * the other two, all of which follow from the arguments alone.
   */
  lemma SellsBookExactly(cash: real, weights: Table, values: Amounts, o: Options)
    requires o.allowSell && Rebalance(cash, weights, values, o).Ok?
    ensures var p := Rebalance(cash, weights, values, o).value;
      var b := BookOf(cash, weights, values, o);
      var spared := Sum(Cancelled(b), b.symbols) + Sum(Spares(b, o, WithSells(b)), b.symbols);
      && RowTotal(p.rows) == cash + Excess(cash, weights, values) - spared
      && (RowTotal(p.rows) + p.residualCash == cash <==> Excess(cash, weights, values) <= spared)
  {
    var b := BookOf(cash, weights, values, o);
    var add := WithSells(b);
    SellsSpend(cash, weights, values, o);
    RowsBook(b, cash, o, add);
    SumAdd(add, Booked(b, add, o), Spares(b, o, add), b.symbols);
  }

  /** No price turns an amount into whole shares. */
  predicate Unrounded(weights: Table, o: Options) {
    o.allowFractional || forall s :: s in weights.keys ==> s !in o.prices
  }

  /** Without whole-share rounding nothing is left unspent or cut. */
  lemma SellsConserveCash(cash: real, weights: Table, values: Amounts, o: Options)
    requires o.allowSell && Unrounded(weights, o) && Rebalance(cash, weights, values, o).Ok?
    ensures var p := Rebalance(cash, weights, values, o).value;
      var cancelled := Sum(Cancelled(BookOf(cash, weights, values, o)), weights.keys);
      && RowTotal(p.rows) == cash + Excess(cash, weights, values) - cancelled
      && (RowTotal(p.rows) + p.residualCash == cash <==> Excess(cash, weights, values) <= cancelled)
  {
    var b := BookOf(cash, weights, values, o);
    SellsBookExactly(cash, weights, values, o);
    SumZero(Spares(b, o, WithSells(b)), b.symbols);
  }

  lemma RowsBook(b: Book, cash: real, o: Options, add: Amounts)
    ensures RowTotal(PlanWith(b, cash, o, add).rows) == Sum(Booked(b, add, o), b.symbols)
  {
    var rows := PlanWith(b, cash, o, add).rows;
    PlanRows(b, cash, o, add);
    RowsTotal(b, add, o, rows, |rows|);
    assert b.symbols[..|b.symbols|] == b.symbols;
  }

  /** Weights that sum to at most 100 never promise too much of holdings worth something. */
  lemma NoExcess(cash: real, weights: Table, values: Amounts)
    requires Sum(values, weights.keys) + cash >= 0.0 && Sum(weights.at, weights.keys) <= 100.0
    ensures Excess(cash, weights, values) <= 0.0
  {
    TargetAtMost(Sum(values, weights.keys) + cash, Sum(weights.at, weights.keys));
  }

  lemma TargetAtMost(total: real, w: real)
    requires total >= 0.0 && w <= 100.0
    ensures TargetOf(total, w) <= total
  {
    ProductMonotone(total, w, 100.0);
    QuotientAtMost(total * w, 100.0, total);
  }

  // ---------------------------------------------------------------- whole shares

  /** What a sale can fall short of by being cut to whole shares: less than one share's price. */
  function SalePrices(b: Book, o: Options): (r: Amounts)
    ensures forall s :: s in r <==> s in b.symbols
  {
    map s | s in b.symbols ::
      if At(b.current, s) > At(b.target, s) && PriceOf(o, s).Some? then PriceOf(o, s).value else 0.0
  }

  /** Rounding a sale to whole shares books less than was to be sold, by less than one share. */
  lemma WholeSale(add: real, price: real)
    requires add <= 0.0 && price > 0.0
    ensures var cost := Truncate(add / price) as real * price; add <= cost < add + price
  {
    WholeShares(-add, price);
    NegatedQuotient(add, price);
    TruncateNegates(-add / price);
    NegatedProduct(Truncate(-add / price) as real, price);
  }

  lemma NegatedQuotient(a: real, c: real)
    requires c > 0.0
    ensures -a / c == -(a / c)
  {}

  lemma NegatedProduct(a: real, c: real)
    ensures (-a) * c == -(a * c)
  {}

  lemma TruncateNegates(x: real)
    ensures Truncate(-x) == -Truncate(x)
  {}

  lemma SpareAtLeast(b: Book, o: Options, s: string)
    requires s in b.symbols && (s in o.prices ==> o.prices[s] > 0.0)
    ensures At(Spares(b, o, WithSells(b)), s) + At(SalePrices(b, o), s) >= 0.0
  {
    var add := At(WithSells(b), s);
    AtMostOneShare(o, PriceOf(o, s), add);
    assert add < 0.0 <==> At(b.current, s) > At(b.target, s);
  }

  /** A booked amount exceeds the raw one only for a sale, and then by no more than the price. */
  lemma AtMostOneShare(o: Options, price: Option<real>, add: real)
    requires price.Some? ==> price.value > 0.0
    ensures BookedFor(o, price, add) <= add + if add < 0.0 && price.Some? then price.value else 0.0
  {
    if price.Some? && !o.allowFractional {
      if add >= 0.0 { WholeShares(add, price.value); } else { WholeSale(add, price.value); }
    }
  }

  /**
   * With whole shares a plan with sells can go over that, as cut sales bring in less; but by no more
   * than one share's price of each fund it sells.
   */
  lemma OverspendBound(cash: real, weights: Table, values: Amounts, o: Options)
    requires o.allowSell && Rebalance(cash, weights, values, o).Ok?
    requires forall s :: s in weights.keys && s in o.prices ==> o.prices[s] > 0.0
    ensures var b := BookOf(cash, weights, values, o);
      RowTotal(Rebalance(cash, weights, values, o).value.rows)
      <= cash + Excess(cash, weights, values) - Sum(Cancelled(b), b.symbols) + Sum(SalePrices(b, o), b.symbols)
  {
    var b := BookOf(cash, weights, values, o);
    var spares := Spares(b, o, WithSells(b));
    var covered: Amounts := map s | s in b.symbols :: At(spares, s) + At(SalePrices(b, o), s);
    SellsBookExactly(cash, weights, values, o);
    forall s | s in b.symbols ensures At(covered, s) >= 0.0 { SpareAtLeast(b, o, s); }
    SumAdd(covered, spares, SalePrices(b, o), b.symbols);
    SumNonNegative(covered, b.symbols);
  }
}

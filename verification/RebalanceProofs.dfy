/**
 * Where the cash goes: `planRebalance` from its arguments to its rows and its residual.
 */
module RebalanceProofs {
  import opened Prelude
  import opened Sums
  import opened Rounding
  import opened Allocation
  import opened AllocationProofs

  lemma TargetSign(total: real, w: real)
    requires w >= 0.0
    ensures total >= 0.0 ==> TargetOf(total, w) >= 0.0
    ensures total <= 0.0 ==> TargetOf(total, w) <= 0.0
  {
    if total >= 0.0 {
      ProductNonNegative(total, w);
    } else {
      ProductNonNegative(-total, w);
      assert total * w == -(-total * w);
    }
  }

  /** Non-negative weights make a book the theorems apply to, whatever the holdings are worth. */
  lemma BookIsSane(cash: real, weights: Table, values: Amounts, o: Options)
    requires weights.Valid() && forall s :: s in weights.keys ==> At(weights.at, s) >= 0.0
    ensures Sane(BookOf(cash, weights, values, o))
  {
    var total := Sum(values, weights.keys) + cash;
    var b := BookOf(cash, weights, values, o);
    forall s | s in b.symbols
      ensures At(b.target, s) == TargetOf(total, At(weights.at, s))
      ensures total >= 0.0 ==> At(b.target, s) >= 0.0
      ensures total <= 0.0 ==> At(b.target, s) <= 0.0
    {
      TargetSign(total, At(weights.at, s));
    }
  }

  /** A whole number of shares, not more than the amount would buy. */
  lemma CostAtMost(n: real, q: real, price: real, add: real)
    requires 0.0 <= n <= q && price > 0.0 && q * price == add
    ensures 0.0 <= n * price <= add
  {
    ProductNonNegative(n, price);
    ProductMonotone(price, n, q);
  }

  /** ... and not a whole share less. */
  lemma CostJustBelow(n: real, q: real, price: real, add: real)
    requires q < n + 1.0 && price > 0.0 && q * price == add
    ensures add < n * price + price
  {
    ProductStrict(price, q, n + 1.0);
    OneMore(price, n, (n + 1.0) * price);
  }

  lemma OneMore(price: real, n: real, cost: real)
    requires cost == (n + 1.0) * price
    ensures cost == n * price + price
  {}

  lemma ProductStrict(a: real, c: real, d: real)
    requires a > 0.0 && c < d
    ensures c * a < d * a
  {}

  /** Whole shares never cost more than was set aside for them, and leave less than one share's price. */
  lemma WholeShares(add: real, price: real)
    requires add >= 0.0 && price > 0.0
    ensures var cost := Truncate(add / price) as real * price; 0.0 <= cost <= add < cost + price
  {
    QuotientNonNegative(add, price);
    DivMul(add, price);
    TruncateError(add / price);
    CostAtMost(Truncate(add / price) as real, add / price, price, add);
    CostJustBelow(Truncate(add / price) as real, add / price, price, add);
  }

  /** What is left over of the amount planned for a fund after its row is booked. */
  function Spare(o: Options, s: string, add: real): real {
    add - BookedFor(o, PriceOf(o, s), add)
  }

  lemma SpareBounds(o: Options, s: string, add: real)
    requires add >= 0.0
    ensures 0.0 <= Spare(o, s, add) <= add
    ensures o.allowFractional || PriceOf(o, s).None? ==> Spare(o, s, add) == 0.0
    ensures PriceOf(o, s).Some? && PriceOf(o, s).value > 0.0 ==> Spare(o, s, add) < PriceOf(o, s).value
  {
    var price := PriceOf(o, s);
    if price.Some? && !o.allowFractional {
      if price.value > 0.0 {
        WholeShares(add, price.value);
      } else {
        assert SharesFor(o, price, add) * price.value == 0.0;
      }
    }
  }

  lemma {:induction false} SumStrict(m: Amounts, n: Amounts, keys: seq<string>, k: string)
    requires k in keys && At(m, k) < At(n, k)
    requires forall s :: s in keys ==> At(m, s) <= At(n, s)
    ensures Sum(m, keys) < Sum(n, keys)
  {
    var front, last := keys[..|keys| - 1], keys[|keys| - 1];
    if k in front { SumStrict(m, n, front, k); } else { SumMonotone(m, n, front); }
  }

  /** The prices of the funds a plan may buy shares of; every other symbol contributes nothing. */
  function BuyablePrices(b: Book, o: Options): (r: Amounts)
    ensures forall s :: s in r <==> s in b.symbols
  {
    map s | s in b.symbols :: if s in b.noBuy || PriceOf(o, s).None? then 0.0 else PriceOf(o, s).value
  }

  function Spares(b: Book, o: Options, add: Amounts): (r: Amounts)
    ensures forall s :: s in r <==> s in b.symbols
  {
    map s | s in b.symbols :: Spare(o, s, At(add, s))
  }

  /** Booking a plan that sells nothing sets aside its spare amounts, none of them negative. */
  lemma BookingSplits(b: Book, o: Options, add: Amounts)
    requires BuyOnlyShape(b, add)
    ensures Sum(add, b.symbols) == Sum(Booked(b, add, o), b.symbols) + Sum(Spares(b, o, add), b.symbols)
    ensures Sum(Spares(b, o, add), b.symbols) >= 0.0
  {
    var spares, booked := Spares(b, o, add), Booked(b, add, o);
    forall s | s in b.symbols ensures At(add, s) == At(booked, s) + At(spares, s) && At(spares, s) >= 0.0 {
      SpareBounds(o, s, At(add, s));
    }
    SumAdd(add, booked, spares, b.symbols);
    SumNonNegative(spares, b.symbols);
  }

  /** With positive prices the spare amounts stay below the prices of the buyable funds. */
  lemma SparesBelowPrices(b: Book, o: Options, add: Amounts)
    requires BuyOnlyShape(b, add) && forall s :: s in o.prices ==> o.prices[s] > 0.0
    ensures var priced := exists s :: s in b.symbols && s !in b.noBuy && s in o.prices;
      if priced && !o.allowFractional
      then Sum(Spares(b, o, add), b.symbols) < Sum(BuyablePrices(b, o), b.symbols)
      else Sum(Spares(b, o, add), b.symbols) == 0.0
  {
    var spares, prices := Spares(b, o, add), BuyablePrices(b, o);
    forall s | s in b.symbols
      ensures At(spares, s) <= At(prices, s)
      ensures s in b.noBuy || s !in o.prices || o.allowFractional ==> At(spares, s) == 0.0
      ensures s !in b.noBuy && s in o.prices ==> At(spares, s) < At(prices, s)
    {
      SpareBounds(o, s, At(add, s));
    }
    if (exists s :: s in b.symbols && s !in b.noBuy && s in o.prices) && !o.allowFractional {
      var s :| s in b.symbols && s !in b.noBuy && s in o.prices;
      SumStrict(spares, prices, b.symbols, s);
    } else {
      SumZero(spares, b.symbols);
    }
  }

  function RowTotal(rows: seq<Row>): real {
    if rows == [] then 0.0 else RowTotal(rows[..|rows| - 1]) + rows[|rows| - 1].addValue
  }

  lemma {:induction false} RowsTotal(b: Book, add: Amounts, o: Options, rows: seq<Row>, n: nat)
    requires n == |rows| <= |b.symbols|
    requires forall i :: 0 <= i < n ==> rows[i] == RowFor(b, add, o, b.symbols[i])
    ensures RowTotal(rows) == Sum(Booked(b, add, o), b.symbols[..n])
  {
    if n > 0 {
      RowsTotal(b, add, o, rows[..n - 1], n - 1);
      SumSnoc(Booked(b, add, o), b.symbols, n - 1);
    }
  }

  /**
   * Cash is conserved end to end in buy-only mode: the rows and the residual add up to the cash,
   * whatever the prices, and the clamp on the residual never acts.
   */
  lemma RebalanceConservesCash(cash: real, weights: Table, values: Amounts, o: Options)
    requires weights.Valid() && forall s :: s in weights.keys ==> At(weights.at, s) >= 0.0
    requires !o.allowSell && Rebalance(cash, weights, values, o).Ok?
    ensures var p := Rebalance(cash, weights, values, o).value;
      && RowTotal(p.rows) + p.residualCash == cash
      && RowTotal(p.rows) <= cash
      && RowsOnlyBuy(p.rows)
  {
    var b := BookOf(cash, weights, values, o);
    BookIsSane(cash, weights, values, o);
    BuyOnlySpendsTheCash(b, cash);
    PlanConserves(b, cash, o, BuyOnly(b, cash));
  }

  lemma RowsBuyOnly(b: Book, o: Options, add: Amounts, s: string)
    requires BuyOnlyShape(b, add) && s in b.symbols
    ensures var row := RowFor(b, add, o, s);
      0.0 <= row.addValue <= At(add, s) && (row.noBuy ==> row.addValue == 0.0)
  {
    SpareBounds(o, s, At(add, s));
  }

  lemma PlanConserves(b: Book, cash: real, o: Options, add: Amounts)
    requires BuyOnlyShape(b, add) && Sum(add, b.symbols) <= cash
    ensures var p := PlanWith(b, cash, o, add);
      && RowTotal(p.rows) == Sum(Booked(b, add, o), b.symbols) <= cash
      && RowTotal(p.rows) + p.residualCash == cash
      && RowsOnlyBuy(p.rows)
  {
    var p := PlanWith(b, cash, o, add);
    PlanRows(b, cash, o, add);
    BookingSplits(b, o, add);
    RowsFit(b, o, add, p.rows);
  }

  ghost predicate RowsOnlyBuy(rows: seq<Row>) {
    forall i :: 0 <= i < |rows| ==> rows[i].addValue >= 0.0 && (rows[i].noBuy ==> rows[i].addValue == 0.0)
  }

  lemma RowsFit(b: Book, o: Options, add: Amounts, rows: seq<Row>)
    requires BuyOnlyShape(b, add)
    requires |rows| == |b.symbols| && forall i :: 0 <= i < |rows| ==> rows[i] == RowFor(b, add, o, b.symbols[i])
    ensures RowTotal(rows) == Sum(Booked(b, add, o), b.symbols)
    ensures RowsOnlyBuy(rows)
  {
    RowsTotal(b, add, o, rows, |rows|);
    assert b.symbols[..|b.symbols|] == b.symbols;
    forall i | 0 <= i < |rows|
      ensures rows[i].addValue >= 0.0 && (rows[i].noBuy ==> rows[i].addValue == 0.0)
    {
      RowsBuyOnly(b, o, add, b.symbols[i]);
    }
  }

  lemma PlanRows(b: Book, cash: real, o: Options, add: Amounts)
    ensures var p := PlanWith(b, cash, o, add);
      && |p.rows| == |b.symbols| && (forall i :: 0 <= i < |p.rows| ==> p.rows[i] == RowFor(b, add, o, b.symbols[i]))
      && p.residualCash == Max(0.0, cash - Sum(Booked(b, add, o), b.symbols))
  {}

  /**
   * How much can be left over when every price is positive and some fund may be bought: nothing
   * with fractional shares or without priced funds, otherwise less than one share of each.
   */
  lemma ResidualBound(cash: real, weights: Table, values: Amounts, o: Options)
    requires weights.Valid() && forall s :: s in weights.keys ==> At(weights.at, s) >= 0.0
    requires !o.allowSell && Rebalance(cash, weights, values, o).Ok?
    requires forall s :: s in o.prices ==> o.prices[s] > 0.0
    requires exists s :: s in weights.keys && s !in o.noBuy
    ensures var b := BookOf(cash, weights, values, o);
      var residual := Rebalance(cash, weights, values, o).value.residualCash;
      var priced := exists s :: s in b.symbols && s !in b.noBuy && s in o.prices;
      if priced && !o.allowFractional then 0.0 <= residual < Sum(BuyablePrices(b, o), b.symbols) else residual == 0.0
  {
    var b := BookOf(cash, weights, values, o);
    var add := BuyOnly(b, cash);
    BookIsSane(cash, weights, values, o);
    BuyOnlySpendsTheCash(b, cash);
    var s :| s in weights.keys && s !in o.noBuy;
    assert s in Buyable(b, b.symbols);
    BookingSplits(b, o, add);
    SparesBelowPrices(b, o, add);
  }

  // ---------------------------------------------------------------- plans that sell

  const TWO_FUNDS: Table := Table(["A", "B"], map["A" := 0.0, "B" := 100.0])
  const HELD: Amounts := map["A" := 10.0, "B" := 0.0]
  const SELLING: Options := Options(map["A" := 7.0, "B" := 10.0], false, 4, true, {}, None)

  lemma SumTwo(m: Amounts)
    ensures Sum(m, ["A", "B"]) == At(m, "A") + At(m, "B")
  {
    var keys := ["A", "B"];
    assert keys[..1] == ["A"] && ["A"][..0] == [];
    assert Sum(m, ["A"]) == At(m, "A");
    assert Sum(m, keys) == Sum(m, keys[..1]) + At(m, keys[1]);
  }

  lemma SellingBook()
    ensures var b := BookOf(0.0, TWO_FUNDS, HELD, SELLING);
      b.symbols == ["A", "B"] && At(WithSells(b), "A") == -10.0 && At(WithSells(b), "B") == 10.0
  {
    SumTwo(HELD);
  }

  lemma SellingBooked(o: Options)
    requires o == SELLING
    ensures BookedFor(o, PriceOf(o, "A"), -10.0) == -7.0
    ensures BookedFor(o, PriceOf(o, "B"), 10.0) == 10.0
  {
    assert Truncate(-10.0 / 7.0) == -1;
    assert Truncate(10.0 / 10.0) == 1;
  }

  /**
   * With sells allowed a whole-share plan may spend more than the cash: a sale is cut to whole
   * shares while the purchase it should pay for goes ahead, and the clamp reports a residual of zero.
   */
  lemma SellsCanOverspend()
    ensures TWO_FUNDS.Valid() && SELLING.allowSell
    ensures var r := Rebalance(0.0, TWO_FUNDS, HELD, SELLING);
      r.Ok? && RowTotal(r.value.rows) == 3.0 && r.value.residualCash == 0.0
  {
    SumTwo(TWO_FUNDS.at);
    SellingTotals();
  }

  lemma SellingTotals()
    ensures var b := BookOf(0.0, TWO_FUNDS, HELD, SELLING); var p := PlanWith(b, 0.0, SELLING, WithSells(b));
      RowTotal(p.rows) == 3.0 && p.residualCash == 0.0
  {
    var b := BookOf(0.0, TWO_FUNDS, HELD, SELLING);
    SellingBook();
    SellingBooked(SELLING);
    PlanRows(b, 0.0, SELLING, WithSells(b));
    RowsTotal(b, WithSells(b), SELLING, PlanWith(b, 0.0, SELLING, WithSells(b)).rows, 2);
    assert b.symbols[..2] == b.symbols;
    SumTwo(Booked(b, WithSells(b), SELLING));
  }
}

/**
 * Who gets what of the money: the proportions in which gaps, scarce cash and spare cash are shared out,
 * and what a row says of it, in terms of weights, targets and prices alone.
 */
module AllocationShares {
  import opened Prelude
  import opened Sums
  import opened Rounding
  import opened Allocation
  import opened AllocationProofs

  lemma {:induction false} CrossParts(r: real, p: real, q: real, whole: real, a: real, b: real)
    requires p * whole == a && q * whole == b
    ensures (r * p) * b == (r * q) * a
  {
    assert (r * p) * b == (r * p) * (q * whole);
    assert (r * q) * a == (r * q) * (p * whole);
    FourFactors(r, p, q, whole);
  }

  lemma {:induction false} FourFactors(r: real, p: real, q: real, w: real)
    ensures (r * p) * (q * w) == (r * q) * (p * w)
  {}

  /** Amounts in the ratio of their weights, or equal ones if all the weights together carry no value. */
  predicate ShareRatio(x: real, y: real, weightX: real, weightY: real, total: real) {
    if total > 0.0 then InRatio(x, y, weightX, weightY) else x == y
  }

  /** Two parts of one amount, shared out among the given funds. */
  lemma {:induction false} PartsInRatio(x: real, y: real, weight: Amounts, among: seq<string>, whole: real, s: string,
                                        t: string)
    requires |among| > 0
    requires x == Times(whole, Share(weight, among, s)) && y == Times(whole, Share(weight, among, t))
    ensures ShareRatio(x, y, At(weight, s), At(weight, t), Sum(weight, among))
  {
    var total := Sum(weight, among);
    if total > 0.0 {
      DivMul(At(weight, s), total);
      DivMul(At(weight, t), total);
      CrossParts(whole, At(weight, s) / total, At(weight, t) / total, total, At(weight, s), At(weight, t));
    }
  }

  // ---------------------------------------------------------------- the buy-only plan

  /** Two funds share a bucket exactly if they are given the same category, one with a name. */
  lemma {:induction false} SharedBuckets(b: Book, s: string, t: string)
    requires s != t
    ensures BucketOf(b, s) == BucketOf(b, t) <==>
      exists name :: name != "" && HasCategory(b, s, name) && HasCategory(b, t, name)
  {
    if BucketOf(b, s) == BucketOf(b, t) {
      assert HasCategory(b, s, b.categoryOf.value[s]) && HasCategory(b, t, b.categoryOf.value[s]);
    }
  }

  predicate HasCategory(b: Book, s: string, name: string) {
    b.categoryOf.Some? && s in b.categoryOf.value && b.categoryOf.value[s] == name
  }

  /** Within a bucket the gaps of two buyable funds are in the ratio of their target values. */
  lemma {:induction false} GapsFollowTargets(b: Book, s: string, t: string)
    requires s in Buyable(b, b.symbols) && t in Buyable(b, b.symbols) && BucketOf(b, s) == BucketOf(b, t)
    ensures ShareRatio(At(Gaps(b), s), At(Gaps(b), t), At(b.target, s), At(b.target, t),
                    Sum(b.target, Buyable(b, Members(b, b.symbols, BucketOf(b, s)))))
  {
    var members := Members(b, b.symbols, BucketOf(b, s));
    assert s in Buyable(b, members);
    GapIsPart(b, s);
    GapIsPart(b, t);
    PartsInRatio(At(Gaps(b), s), At(Gaps(b), t), b.target, Buyable(b, members), BucketGap(b, members), s, t);
  }

  lemma {:induction false} GapIsPart(b: Book, s: string)
    requires s in Buyable(b, b.symbols)
    ensures var members := Members(b, b.symbols, BucketOf(b, s));
      && Buyable(b, members) != []
      && At(Gaps(b), s) == Times(BucketGap(b, members), Share(b.target, Buyable(b, members), s))
  {
    assert s in Buyable(b, Members(b, b.symbols, BucketOf(b, s)));
  }

  /** Cash beyond the gaps goes to two buyable funds in the ratio of their weights: `x` and `y` on top of their gaps. */
  lemma {:induction false} SpareCashFollowsWeights(b: Book, cash: real, s: string, t: string)
    returns (x: real, y: real)
    requires s in Buyable(b, b.symbols) && t in Buyable(b, b.symbols)
    requires Sum(Gaps(b), Buyable(b, b.symbols)) < cash
    ensures At(BuyOnly(b, cash), s) == At(Gaps(b), s) + x && At(BuyOnly(b, cash), t) == At(Gaps(b), t) + y
    ensures ShareRatio(x, y, At(b.weights, s), At(b.weights, t), Sum(b.weights, Buyable(b, b.symbols)))
  {
    var spare;
    x, y, spare := SpareParts(b, cash, s, t);
    PartsInRatio(x, y, b.weights, Buyable(b, b.symbols), spare, s, t);
  }

  lemma {:induction false} SpareParts(b: Book, cash: real, s: string, t: string)
    returns (x: real, y: real, spare: real)
    requires s in Buyable(b, b.symbols) && t in Buyable(b, b.symbols)
    requires Sum(Gaps(b), Buyable(b, b.symbols)) < cash
    ensures At(BuyOnly(b, cash), s) == At(Gaps(b), s) + x && At(BuyOnly(b, cash), t) == At(Gaps(b), t) + y
    ensures x == Times(spare, Share(b.weights, Buyable(b, b.symbols), s))
    ensures y == Times(spare, Share(b.weights, Buyable(b, b.symbols), t))
  {
    spare := cash - Sum(Gaps(b), Buyable(b, b.symbols));
    x := Times(spare, Share(b.weights, Buyable(b, b.symbols), s));
    y := Times(spare, Share(b.weights, Buyable(b, b.symbols), t));
  }

  /** Cash that just meets the gaps fills each of them. */
  lemma {:induction false} MatchingCashFillsGaps(b: Book, cash: real, s: string)
    requires s in Buyable(b, b.symbols) && cash == Sum(Gaps(b), Buyable(b, b.symbols))
    ensures At(BuyOnly(b, cash), s) == At(Gaps(b), s)
  {}

  /** Cash short of the gaps goes to two buyable funds in the ratio of their gaps. */
  lemma {:induction false} ScarceCashFollowsGaps(b: Book, cash: real, s: string, t: string)
    requires s in Buyable(b, b.symbols) && t in Buyable(b, b.symbols)
    requires 0.0 <= cash < Sum(Gaps(b), Buyable(b, b.symbols))
    ensures InRatio(At(BuyOnly(b, cash), s), At(BuyOnly(b, cash), t), At(Gaps(b), s), At(Gaps(b), t))
  {
    var gap, total := Gaps(b), Sum(Gaps(b), Buyable(b, b.symbols));
    ScarceIsPart(b, cash, s);
    ScarceIsPart(b, cash, t);
    ProratedInRatio(At(BuyOnly(b, cash), s), At(BuyOnly(b, cash), t), At(gap, s), At(gap, t), cash, total);
  }

  lemma {:induction false} ScarceIsPart(b: Book, cash: real, s: string)
    requires s in Buyable(b, b.symbols) && 0.0 <= cash < Sum(Gaps(b), Buyable(b, b.symbols))
    ensures At(BuyOnly(b, cash), s) == Prorated(At(Gaps(b), s), cash, Sum(Gaps(b), Buyable(b, b.symbols)))
  {}

  lemma {:induction false} ProratedInRatio(x: real, y: real, a: real, b: real, part: real, whole: real)
    requires whole > 0.0 && x == Prorated(a, part, whole) && y == Prorated(b, part, whole)
    ensures InRatio(x, y, a, b)
  {
    ProratedAs(a, part, whole);
    ProratedAs(b, part, whole);
    ThreeFactors(a, b, part / whole);
  }

  lemma {:induction false} ProratedAs(a: real, part: real, whole: real)
    requires whole > 0.0
    ensures Prorated(a, part, whole) == a * (part / whole)
  {}

  lemma {:induction false} ThreeFactors(a: real, b: real, f: real)
    ensures (a * f) * b == (b * f) * a
  {}

  // ---------------------------------------------------------------- targets and rows

  /** Planning fails exactly for negative cash, or else for weights off 100 by more than a hundredth. */
  lemma {:induction false} PlanningFails(cash: real, weights: Table, values: Amounts, o: Options)
    ensures var r, sum := Rebalance(cash, weights, values, o), Sum(weights.at, weights.keys);
      && (r == Err(NegativeCash) <==> cash < 0.0)
      && (r == Err(WeightsNotHundred) <==> cash >= 0.0 && (sum < 99.99 || sum > 100.01))
      && (r.Ok? ==> r.value.cashToInvest == cash)
  {}

  /** A fund's target is its percentage of everything held and the cash; the book holds what is held. */
  lemma {:induction false} TargetsArePercentages(cash: real, weights: Table, values: Amounts, o: Options, s: string)
    requires s in weights.keys
    ensures var b := BookOf(cash, weights, values, o);
      && At(b.target, s) * 100.0 == (Sum(values, weights.keys) + cash) * At(weights.at, s)
      && At(b.current, s) == At(values, s) && b.symbols == weights.keys && b.noBuy == o.noBuy
  {
    var total := Sum(values, weights.keys) + cash;
    DivMul(total * At(weights.at, s), 100.0);
  }

  /** With sells allowed every fund ends at its target, unless that takes a purchase of a `noBuy` fund. */
  lemma {:induction false} SellsReachEachTarget(b: Book, s: string)
    requires s in b.symbols
    ensures At(b.current, s) + At(WithSells(b), s) ==
            if s in b.noBuy && At(b.target, s) > At(b.current, s) then At(b.current, s) else At(b.target, s)
  {}

  /** `x` has at most `places` decimals. */
  ghost predicate HasPlaces(x: real, places: nat) {
    exists n: int :: IsFraction(x, n, Pow10(places))
  }

  predicate IsFraction(x: real, n: int, p: int) { x * p as real == n as real }

  lemma {:induction false} RoundedNear(x: real, places: nat)
    ensures HasPlaces(ToDecimalPlaces(x, places), places)
    ensures WithinHalf(ToDecimalPlaces(x, places), x, Pow10(places))
  {
    QuotientNear(x, HalfEven(x * Pow10(places) as real), Pow10(places));
  }

  /** `x` is within half a unit in the last place of `y`. */
  predicate WithinHalf(x: real, y: real, p: int) { -0.5 <= (x - y) * p as real <= 0.5 }

  lemma {:induction false} QuotientNear(x: real, n: int, p: int)
    requires p > 0 && n == HalfEven(x * p as real)
    ensures IsFraction(n as real / p as real, n, p) && WithinHalf(n as real / p as real, x, p)
  {
    HalfEvenNearest(x * p as real, 0);
    DivMul(n as real, p as real);
    MinusTimes(n as real / p as real, x, p as real);
  }

  lemma {:induction false} MinusTimes(a: real, b: real, p: real)
    ensures (a - b) * p == a * p - b * p
  {}

  /**
   * What a row says of a fund with a positive price: with fractions allowed the amount is booked whole
   * and the shares are those it buys, to the given decimals; otherwise the shares are whole, the amount
   * is their price, and it is the raw amount cut toward zero by less than one share.
   */
  lemma {:induction false} RowSharesAndValue(b: Book, add: Amounts, o: Options, s: string)
    requires s in b.symbols && s in o.prices && o.prices[s] > 0.0
    ensures var row, price, raw := RowFor(b, add, o, s), o.prices[s], At(add, s);
      && row.symbol == s && row.targetPct == At(b.weights, s) && row.currentValue == At(b.current, s)
      && row.currentPrice == Some(price) && (row.noBuy <==> s in b.noBuy)
      && (o.allowFractional ==>
            && row.addValue == raw && HasPlaces(row.addShares, o.fractionalDecimals)
            && WithinHalf(row.addShares, raw / price, Pow10(o.fractionalDecimals)))
      && (!o.allowFractional ==>
            && row.addValue == Times(row.addShares, price) && row.addShares == row.addShares.Floor as real
            && CutShort(raw, row.addValue, price))
  {
    var price, raw := o.prices[s], At(add, s);
    if o.allowFractional {
      RoundedNear(raw / price, o.fractionalDecimals);
    } else {
      CutTowardZero(raw, price);
    }
  }

  /** An amount cut toward zero by less than one share. */
  predicate CutShort(raw: real, cost: real, price: real) {
    && (raw >= 0.0 ==> 0.0 <= cost <= raw < cost + price)
    && (raw <= 0.0 ==> cost - price < raw <= cost <= 0.0)
  }

  lemma {:induction false} CutTowardZero(raw: real, price: real)
    requires price > 0.0
    ensures CutShort(raw, Truncate(raw / price) as real * price, price)
  {
    DivMul(raw, price);
    SignOfQuotient(raw, price);
    CutWith(raw / price, raw, price);
  }

  lemma {:induction false} CutWith(q: real, raw: real, price: real)
    requires price > 0.0 && q * price == raw && (raw >= 0.0 ==> q >= 0.0) && (raw <= 0.0 ==> q <= 0.0)
    ensures CutShort(raw, Truncate(q) as real * price, price)
  {
    TruncateError(q);
    Scale(Truncate(q) as real, q, price);
  }

  lemma {:induction false} SignOfQuotient(a: real, c: real)
    requires c > 0.0
    ensures a >= 0.0 ==> a / c >= 0.0
    ensures a <= 0.0 ==> a / c <= 0.0
  {}

  lemma {:induction false} Scale(n: real, q: real, price: real)
    requires price > 0.0
    ensures n <= q < n + 1.0 ==> n * price <= q * price < n * price + price
    ensures n - 1.0 < q <= n ==> n * price - price < q * price <= n * price
    ensures n >= 0.0 ==> n * price >= 0.0
    ensures n <= 0.0 ==> n * price <= 0.0
  {
    Ordered(n, q, price);
    Ordered(q, n, price);
    StrictlyOrdered(q, n + 1.0, price);
    StrictlyOrdered(n - 1.0, q, price);
    Ordered(0.0, n, price);
    Ordered(n, 0.0, price);
    assert (n + 1.0) * price == n * price + price && (n - 1.0) * price == n * price - price;
  }

  lemma {:induction false} Ordered(a: real, b: real, c: real)
    requires c > 0.0
    ensures a <= b ==> a * c <= b * c
  {}

  lemma {:induction false} StrictlyOrdered(a: real, b: real, c: real)
    requires c > 0.0
    ensures a < b ==> a * c < b * c
  {}

  /** A fund without a price, or with one that is no price, gets no shares; the latter books nothing whole. */
  lemma {:induction false} RowWithoutPrice(b: Book, add: Amounts, o: Options, s: string)
    requires s in b.symbols && (s in o.prices ==> o.prices[s] <= 0.0)
    ensures var row := RowFor(b, add, o, s);
      && row.addShares == 0.0
      && row.addValue == if s in o.prices && !o.allowFractional then 0.0 else At(add, s)
  {}
}

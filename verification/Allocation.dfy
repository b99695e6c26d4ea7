/**
 * The rebalancing planner of web/src/allocation.ts, over exact reals.
 *
 * A JavaScript `Map` is a `Table`: its keys in insertion order and the value of each.  The loops
 * that fill maps and running totals are methods; each is proved to compute the function beside it.
 */
module Allocation {
  import opened Prelude
  import opened Sums
  import opened Rounding

  datatype Table = Table(keys: seq<string>, at: Amounts) {
    ghost predicate Valid() {
      Distinct(keys) && forall k :: k in keys <==> k in at
    }
  }

  /** What the planner knows of the portfolio when it decides what to buy. */
  datatype Book = Book(symbols: seq<string>, weights: Amounts, target: Amounts, current: Amounts,
                       noBuy: set<string>, categoryOf: Option<map<string, string>>)

  // ---------------------------------------------------------------- buckets

  datatype Bucket = Category(name: string) | Solo(symbol: string)

  /** The bucket a symbol is measured in; an empty category name counts as none. */
  function BucketOf(b: Book, s: string): Bucket {
    if b.categoryOf.Some? && s in b.categoryOf.value && b.categoryOf.value[s] != ""
    then Category(b.categoryOf.value[s])
    else Solo(s)
  }

  function Members(b: Book, keys: seq<string>, k: Bucket): (r: seq<string>)
    ensures forall s :: s in r <==> s in keys && BucketOf(b, s) == k
    ensures Distinct(keys) ==> Distinct(r)
  {
    if keys == [] then []
    else
      var rest := Members(b, keys[..|keys| - 1], k);
      var last := keys[|keys| - 1];
      if BucketOf(b, last) == k then rest + [last] else rest
  }

  function Buyable(b: Book, keys: seq<string>): (r: seq<string>)
    ensures forall s :: s in r <==> s in keys && s !in b.noBuy
    ensures Distinct(keys) ==> Distinct(r)
  {
    if keys == [] then []
    else
      var rest := Buyable(b, keys[..|keys| - 1]);
      var last := keys[|keys| - 1];
      if last in b.noBuy then rest else rest + [last]
  }

  /** A product, named so that equal factors are seen to give equal products. */
  function Times(a: real, b: real): real { a * b }

  function Prorated(a: real, part: real, whole: real): real
    requires whole != 0.0
  {
    a * part / whole
  }

  /** The share of one of `among`: by target value, or evenly when the targets carry no value. */
  function Share(weight: Amounts, among: seq<string>, s: string): real
    requires |among| > 0
  {
    if Sum(weight, among) > 0.0 then At(weight, s) / Sum(weight, among) else 1.0 / |among| as real
  }

  function BucketGap(b: Book, members: seq<string>): real {
    Max(0.0, Sum(b.target, members) - Sum(b.current, members))
  }

  /** The cash one buyable fund asks for: its share of its bucket's shortfall. */
  function GapOf(b: Book, s: string): real
    requires s in b.symbols && s !in b.noBuy
  {
    var members := Members(b, b.symbols, BucketOf(b, s));
    assert s in Buyable(b, members);
    Times(BucketGap(b, members), Share(b.target, Buyable(b, members), s))
  }

  function Gaps(b: Book): (r: Amounts)
    ensures forall s :: s in r <==> s in b.symbols && s !in b.noBuy
  {
    map s | s in b.symbols && s !in b.noBuy :: GapOf(b, s)
  }

  lemma {:induction false} SoloMembers(b: Book, keys: seq<string>, s: string)
    requires Distinct(keys) && BucketOf(b, s) == Solo(s)
    ensures Members(b, keys, Solo(s)) == if s in keys then [s] else []
  {
    if keys != [] {
      var front, last := keys[..|keys| - 1], keys[|keys| - 1];
      DistinctPrefix(keys, |front|);
      SoloMembers(b, front, s);
      if BucketOf(b, last) == Solo(s) { assert last == s; }
      assert keys == front + [last];
    }
  }

  lemma ShareOfOne(weight: Amounts, s: string)
    ensures Share(weight, [s], s) == 1.0
    ensures Sum(weight, [s]) == At(weight, s)
  {
    assert [s][..0] == [];
    assert Sum(weight, [s]) == At(weight, s);
    if At(weight, s) > 0.0 { assert At(weight, s) / At(weight, s) == 1.0; }
  }

  lemma BuyableOfOne(b: Book, s: string)
    requires s !in b.noBuy
    ensures Buyable(b, [s]) == [s]
  {
    assert [s][..0] == [];
    assert Buyable(b, []) == [];
  }

  /** Alone in its bucket, a buyable fund asks for exactly its own shortfall. */
  lemma SoloGap(b: Book, s: string)
    requires Distinct(b.symbols) && s in b.symbols && s !in b.noBuy && BucketOf(b, s) == Solo(s)
    ensures GapOf(b, s) == Max(0.0, At(b.target, s) - At(b.current, s))
  {
    SoloMembers(b, b.symbols, s);
    BuyableOfOne(b, s);
    ShareOfOne(b.target, s);
    ShareOfOne(b.current, s);
    assert GapOf(b, s) == Times(BucketGap(b, [s]), Share(b.target, [s], s));
  }

  /** A running total over a list of keys. */
  method Total(m: Amounts, keys: seq<string>) returns (total: real)
    ensures total == Sum(m, keys)
  {
    total := 0.0;
    for i := 0 to |keys|
      invariant total == Sum(m, keys[..i])
    {
      SumSnoc(m, keys, i);
      total := total + At(m, keys[i]);
    }
    assert keys[..|keys|] == keys;
  }

  /** `keys.filter((s) => !noBuy.has(s))`. */
  method FilterBuyable(b: Book, keys: seq<string>) returns (r: seq<string>)
    ensures r == Buyable(b, keys)
  {
    r := [];
    for i := 0 to |keys|
      invariant r == Buyable(b, keys[..i])
    {
      assert keys[..i + 1][..i] == keys[..i];
      if keys[i] !in b.noBuy { r := r + [keys[i]]; }
    }
    assert keys[..|keys|] == keys;
  }

  /** Divides one bucket's shortfall `catGap` among its buyable members. */
  method ShareOut(weight: Amounts, catGap: real, catBuyable: seq<string>, gap: Amounts) returns (r: Amounts)
    requires |catBuyable| > 0
    ensures forall s :: s in r <==> s in gap || s in catBuyable
    ensures forall s :: s in catBuyable ==> r[s] == Times(catGap, Share(weight, catBuyable, s))
    ensures forall s :: s in gap && s !in catBuyable ==> r[s] == gap[s]
  {
    var weightTotal := Total(weight, catBuyable);
    r := gap;
    ghost var done: set<string> := {};
    for i := 0 to |catBuyable|
      invariant forall s :: s in r <==> s in gap || s in done
      invariant forall j :: 0 <= j < i ==> catBuyable[j] in done
      invariant done <= set s | s in catBuyable
      invariant forall s :: s in r ==> r[s] == if s in done then Times(catGap, Share(weight, catBuyable, s)) else gap[s]
    {
      var m := catBuyable[i];
      var share := if weightTotal > 0.0 then At(weight, m) / weightTotal else 1.0 / |catBuyable| as real;
      r := r[m := Times(catGap, share)];
      done := done + {m};
    }
  }

  /** `spec` gives the buyable members of one bucket their shares of its shortfall. */
  ghost predicate SharesOut(b: Book, k: Bucket, members: seq<string>, spec: Amounts) {
    var catBuyable := Buyable(b, members);
    && (forall s :: s in catBuyable <==> s in spec && BucketOf(b, s) == k)
    && forall s :: s in catBuyable ==> spec[s] == Times(BucketGap(b, members), Share(b.target, catBuyable, s))
  }

  lemma GapsShareOut(b: Book, k: Bucket)
    ensures SharesOut(b, k, Members(b, b.symbols, k), Gaps(b))
  {
    var members, spec := Members(b, b.symbols, k), Gaps(b);
    var catBuyable := Buyable(b, members);
    forall s | s in catBuyable
      ensures spec[s] == Times(BucketGap(b, members), Share(b.target, catBuyable, s))
    {
      assert spec[s] == GapOf(b, s);
    }
  }

  /** The loop of `buyOnlyGaps` that shares one bucket's shortfall among its buyable members. */
  method FillBucket(b: Book, k: Bucket, members: seq<string>, gap: Amounts, ghost spec: Amounts) returns (r: Amounts)
    requires SharesOut(b, k, members, spec) && gap.Keys == spec.Keys
    requires forall s :: s in gap && BucketOf(b, s) == k ==> gap[s] == 0.0
    ensures r.Keys == gap.Keys
    ensures forall s :: s in r ==> r[s] == if BucketOf(b, s) == k then spec[s] else gap[s]
  {
    var catBuyable := FilterBuyable(b, members);
    if |catBuyable| == 0 { return gap; }
    var catTarget := Total(b.target, members);
    var catCurrent := Total(b.current, members);
    var catGap := Max(0.0, catTarget - catCurrent);
    if catGap <= 0.0 { return gap; }
    r := ShareOut(b.target, catGap, catBuyable, gap);
  }

  lemma {:induction false} NoMembersYet(b: Book, keys: seq<string>, k: Bucket)
    requires forall s :: s in keys ==> BucketOf(b, s) != k
    ensures Members(b, keys, k) == []
  {
    if keys != [] { NoMembersYet(b, keys[..|keys| - 1], k); }
  }

  lemma MembersSnoc(b: Book, keys: seq<string>, i: nat, k: Bucket)
    requires i < |keys|
    ensures Members(b, keys[..i + 1], k) ==
            if BucketOf(b, keys[i]) == k then Members(b, keys[..i], k) + [keys[i]] else Members(b, keys[..i], k)
  {
    assert keys[..i + 1][..i] == keys[..i];
  }

  /** The buckets of the first `i` symbols, with their members so far. */
  ghost predicate Grouped(b: Book, i: nat, order: seq<Bucket>, members: map<Bucket, seq<string>>)
    requires i <= |b.symbols|
  {
    && Distinct(order) && (forall k :: k in order <==> k in members)
    && (forall k :: k in members ==> members[k] == Members(b, b.symbols[..i], k))
    && (forall j :: 0 <= j < i ==> BucketOf(b, b.symbols[j]) in members)
  }

  lemma GroupedStep(b: Book, i: nat, order: seq<Bucket>, members: map<Bucket, seq<string>>, k: Bucket)
    requires i < |b.symbols| && Grouped(b, i, order, members) && k == BucketOf(b, b.symbols[i]) && k in members
    ensures Grouped(b, i + 1, order, members[k := members[k] + [b.symbols[i]]])
  {
    var grown := members[k := members[k] + [b.symbols[i]]];
    forall k' | k' in grown ensures grown[k'] == Members(b, b.symbols[..i + 1], k') {
      MembersSnoc(b, b.symbols, i, k');
    }
  }

  lemma GroupedNew(b: Book, i: nat, order: seq<Bucket>, members: map<Bucket, seq<string>>, k: Bucket)
    requires i < |b.symbols| && Grouped(b, i, order, members) && k == BucketOf(b, b.symbols[i]) && k !in members
    ensures Grouped(b, i + 1, order + [k], members[k := [b.symbols[i]]])
  {
    var grown := members[k := [b.symbols[i]]];
    NoMembersYet(b, b.symbols[..i], k);
    assert [] + [b.symbols[i]] == [b.symbols[i]];
    forall k' | k' in grown ensures grown[k'] == Members(b, b.symbols[..i + 1], k') {
      MembersSnoc(b, b.symbols, i, k');
    }
  }

  /** `membersByCat` and `soloBuckets`: the buckets in which the symbols are measured. */
  method GroupByCategory(b: Book) returns (order: seq<Bucket>, members: map<Bucket, seq<string>>)
    ensures Grouped(b, |b.symbols|, order, members)
  {
    order, members := [], map[];
    for i := 0 to |b.symbols|
      invariant Grouped(b, i, order, members)
    {
      var k := BucketOf(b, b.symbols[i]);
      if k in members {
        GroupedStep(b, i, order, members, k);
        members := members[k := members[k] + [b.symbols[i]]];
      } else {
        GroupedNew(b, i, order, members, k);
        order := order + [k];
        members := members[k := [b.symbols[i]]];
      }
    }
  }

  /** Sets every fund's gap to its own shortfall: the case without categories. */
  method SoloGaps(b: Book, buyable: seq<string>, ghost spec: Amounts) returns (gap: Amounts)
    requires forall s :: s in spec <==> s in buyable
    requires forall s :: s in spec ==> spec[s] == Max(0.0, At(b.target, s) - At(b.current, s))
    ensures gap == spec
  {
    gap := map[];
    ghost var done: set<string> := {};
    for i := 0 to |buyable|
      invariant gap.Keys == done && done <= spec.Keys
      invariant forall j :: 0 <= j < i ==> buyable[j] in done
      invariant forall s :: s in gap ==> gap[s] == spec[s]
    {
      var s := buyable[i];
      gap := gap[s := Max(0.0, At(b.target, s) - At(b.current, s))];
      done := done + {s};
    }
  }

  lemma SoloGapsSpec(b: Book)
    requires Distinct(b.symbols) && b.categoryOf.None?
    ensures forall s :: s in Gaps(b) ==> Gaps(b)[s] == Max(0.0, At(b.target, s) - At(b.current, s))
  {
    forall s | s in Gaps(b) ensures Gaps(b)[s] == Max(0.0, At(b.target, s) - At(b.current, s)) {
      SoloGap(b, s);
    }
  }

  method BuyOnlyGaps(b: Book) returns (gap: Amounts)
    requires Distinct(b.symbols)
    ensures gap == Gaps(b)
  {
    var buyable := FilterBuyable(b, b.symbols);
    if b.categoryOf.None? {
      SoloGapsSpec(b);
      gap := SoloGaps(b, buyable, Gaps(b));
    } else {
      var order, members := GroupByCategory(b);
      forall k { GapsShareOut(b, k); }
      assert b.symbols[..|b.symbols|] == b.symbols;
      gap := FillBuckets(b, order, members, buyable, Gaps(b));
    }
  }

  /** `spec` gives the members of every bucket their shares. */
  ghost predicate AllSharedOut(b: Book, members: map<Bucket, seq<string>>, spec: Amounts) {
    forall k :: k in members ==> SharesOut(b, k, members[k], spec)
  }

  /** The gaps of the buckets done are those of `spec`, and the others still zero. */
  ghost predicate Filled(b: Book, gap: Amounts, spec: Amounts, done: seq<Bucket>) {
    && gap.Keys == spec.Keys
    && forall s :: s in gap ==> gap[s] == if BucketOf(b, s) in done then spec[s] else 0.0
  }

  method FillNext(b: Book, k: Bucket, members: map<Bucket, seq<string>>, gap: Amounts, ghost spec: Amounts,
                  ghost done: seq<Bucket>)
    returns (r: Amounts)
    requires k in members && AllSharedOut(b, members, spec) && Filled(b, gap, spec, done) && k !in done
    ensures Filled(b, r, spec, done + [k])
  {
    assert SharesOut(b, k, members[k], spec);
    r := FillBucket(b, k, members[k], gap, spec);
  }

  method FillBuckets(b: Book, order: seq<Bucket>, members: map<Bucket, seq<string>>, buyable: seq<string>,
                     ghost spec: Amounts) returns (gap: Amounts)
    requires Distinct(order) && forall k :: k in order <==> k in members
    requires AllSharedOut(b, members, spec)
    requires forall s :: s in spec ==> BucketOf(b, s) in members
    requires forall s :: s in spec <==> s in buyable
    ensures gap == spec
  {
    gap := ZeroGaps(b, buyable, spec);
    ghost var done: seq<Bucket> := [];
    for i := 0 to |order|
      invariant done == order[..i] && Filled(b, gap, spec, done)
    {
      DistinctPrefix(order, i);
      gap := FillNext(b, order[i], members, gap, spec, done);
      done := done + [order[i]];
    }
    assert order[..|order|] == order;
    AllFilled(b, gap, spec, done);
  }

  method ZeroGaps(b: Book, buyable: seq<string>, ghost spec: Amounts) returns (gap: Amounts)
    requires forall s :: s in spec <==> s in buyable
    ensures Filled(b, gap, spec, [])
  {
    gap := map s | s in buyable :: 0.0;
  }

  lemma AllFilled(b: Book, gap: Amounts, spec: Amounts, done: seq<Bucket>)
    requires Filled(b, gap, spec, done) && forall s :: s in spec ==> BucketOf(b, s) in done
    ensures gap == spec
  {}

  // ---------------------------------------------------------------- plans

  function BuyOnlyAdd(b: Book, cash: real, gap: Amounts, gapTotal: real, s: string): real {
    if s in b.noBuy || s !in b.symbols then 0.0
    else if gapTotal > cash && gapTotal > 0.0 then Prorated(At(gap, s), cash, gapTotal)
    else if gapTotal < cash then At(gap, s) + Times(cash - gapTotal, Share(b.weights, Buyable(b, b.symbols), s))
    else At(gap, s)
  }

  /** The buy-only plan that meets the given gaps. */
  function PlanFrom(b: Book, cash: real, gap: Amounts): (r: Amounts)
    ensures forall s :: s in r <==> s in b.symbols
  {
    var gapTotal := Sum(gap, Buyable(b, b.symbols));
    map s | s in b.symbols :: BuyOnlyAdd(b, cash, gap, gapTotal, s)
  }

  function BuyOnly(b: Book, cash: real): (r: Amounts)
    ensures forall s :: s in r <==> s in b.symbols
  {
    PlanFrom(b, cash, Gaps(b))
  }

  /** Gives each buyable fund the amount the branch computes for it; every other symbol gets zero. */
  method FillPlan(b: Book, buyable: seq<string>, amount: string -> real) returns (add: Amounts)
    requires buyable == Buyable(b, b.symbols)
    ensures forall s :: s in add <==> s in b.symbols
    ensures forall s :: s in add ==> add[s] == if s in b.noBuy then 0.0 else amount(s)
  {
    add := map s | s in b.symbols :: 0.0;
    ghost var done: set<string> := {};
    for i := 0 to |buyable|
      invariant forall s :: s in add <==> s in b.symbols
      invariant forall j :: 0 <= j < i ==> buyable[j] in done
      invariant forall s :: s in done ==> s in buyable
      invariant forall s :: s in add ==> add[s] == if s in done then amount(s) else 0.0
    {
      add := add[buyable[i] := amount(buyable[i])];
      done := done + {buyable[i]};
    }
  }

  method PlanBuyOnly(b: Book, cash: real) returns (add: Amounts)
    requires Distinct(b.symbols)
    ensures add == BuyOnly(b, cash)
  {
    var buyable := FilterBuyable(b, b.symbols);
    var gap := BuyOnlyGaps(b);
    var gapTotal := Total(gap, buyable);
    add := DistributeCash(b, buyable, cash, gap, gapTotal);
  }

  method DistributeCash(b: Book, buyable: seq<string>, cash: real, gap: Amounts, gapTotal: real)
    returns (add: Amounts)
    requires buyable == Buyable(b, b.symbols)
    ensures forall s :: s in add <==> s in b.symbols
    ensures forall s :: s in add ==> add[s] == BuyOnlyAdd(b, cash, gap, gapTotal, s)
  {
    if gapTotal > cash && gapTotal > 0.0 {
      add := FillPlan(b, buyable, s => Prorated(At(gap, s), cash, gapTotal));
    } else if gapTotal < cash {
      var buyableWeight := Total(b.weights, buyable);
      var share := s => if buyableWeight > 0.0 then At(b.weights, s) / buyableWeight
                        else if |buyable| > 0 then 1.0 / |buyable| as real else 0.0;
      assert forall s :: |buyable| > 0 ==> share(s) == Share(b.weights, buyable, s);
      add := FillPlan(b, buyable, s => At(gap, s) + Times(cash - gapTotal, share(s)));
    } else {
      add := FillPlan(b, buyable, s => At(gap, s));
    }
  }

  function WithSells(b: Book): (r: Amounts)
    ensures forall s :: s in r <==> s in b.symbols
  {
    map s | s in b.symbols ::
      var delta := At(b.target, s) - At(b.current, s);
      if s in b.noBuy && delta > 0.0 then 0.0 else delta
  }

  method PlanWithSells(b: Book) returns (add: Amounts)
    ensures add == WithSells(b)
  {
    add := map[];
    for i := 0 to |b.symbols|
      invariant forall s :: s in add <==> s in b.symbols[..i]
      invariant forall s :: s in add ==> add[s] == WithSells(b)[s]
    {
      var s := b.symbols[i];
      var delta := At(b.target, s) - At(b.current, s);
      add := add[s := if s in b.noBuy && delta > 0.0 then 0.0 else delta];
    }
  }

  // ---------------------------------------------------------------- planRebalance

  datatype Options = Options(prices: Amounts, allowFractional: bool, fractionalDecimals: nat, allowSell: bool,
                             noBuy: set<string>, categoryOf: Option<map<string, string>>)

  datatype Row = Row(symbol: string, targetPct: real, currentValue: real, addValue: real,
                     currentPrice: Option<real>, addShares: real, noBuy: bool)

  datatype Plan = Plan(rows: seq<Row>, cashToInvest: real, residualCash: real)

  datatype PlanError = NegativeCash | WeightsNotHundred

  function TargetOf(total: real, weight: real): real { total * weight / 100.0 }

  function TargetMap(symbols: seq<string>, weights: Amounts, total: real): Amounts {
    map s | s in symbols :: TargetOf(total, At(weights, s))
  }

  function Held(symbols: seq<string>, values: Amounts): Amounts {
    map s | s in symbols :: At(values, s)
  }

  /** The book `planRebalance` builds: target values are shares of today's total plus the cash. */
  function BookOf(cash: real, weights: Table, values: Amounts, o: Options): Book {
    var total := Sum(values, weights.keys) + cash;
    Book(weights.keys, weights.at,
         TargetMap(weights.keys, weights.at, total), Held(weights.keys, values),
         o.noBuy, o.categoryOf)
  }

  function PriceOf(o: Options, s: string): Option<real> {
    if s in o.prices then Some(o.prices[s]) else None
  }

  function SharesFor(o: Options, price: Option<real>, add: real): real {
    if price.None? || price.value <= 0.0 then 0.0
    else if o.allowFractional then ToDecimalPlaces(add / price.value, o.fractionalDecimals)
    else Truncate(add / price.value) as real
  }

  /** The amount a row books: what its whole shares cost, unless it is unpriced or may buy fractions. */
  function BookedFor(o: Options, price: Option<real>, add: real): real {
    if price.None? || o.allowFractional then add else SharesFor(o, price, add) * price.value
  }

  function RowFor(b: Book, add: Amounts, o: Options, s: string): Row {
    var price := PriceOf(o, s);
    Row(s, At(b.weights, s), At(b.current, s), BookedFor(o, price, At(add, s)), price,
        SharesFor(o, price, At(add, s)), s in b.noBuy)
  }

  function Booked(b: Book, add: Amounts, o: Options): (r: Amounts)
    ensures forall s :: s in r <==> s in b.symbols
  {
    map s | s in b.symbols :: BookedFor(o, PriceOf(o, s), At(add, s))
  }

  function RawAdd(b: Book, cash: real, o: Options): (r: Amounts)
    ensures forall s :: s in r <==> s in b.symbols
  {
    if o.allowSell then WithSells(b) else BuyOnly(b, cash)
  }

  /** The rows and residual for given raw amounts. */
  function PlanWith(b: Book, cash: real, o: Options, add: Amounts): (p: Plan)
    ensures |p.rows| == |b.symbols| && forall i :: 0 <= i < |p.rows| ==> p.rows[i].symbol == b.symbols[i]
  {
    Plan(seq(|b.symbols|, i requires 0 <= i < |b.symbols| => RowFor(b, add, o, b.symbols[i])),
         cash, Max(0.0, cash - Sum(Booked(b, add, o), b.symbols)))
  }

  function PlanFor(b: Book, cash: real, o: Options): (p: Plan) {
    PlanWith(b, cash, o, RawAdd(b, cash, o))
  }

  function Rebalance(cash: real, weights: Table, values: Amounts, o: Options): Result<Plan, PlanError> {
    if cash < 0.0 then Err(NegativeCash)
    else if Abs(Sum(weights.at, weights.keys) - 100.0) > 0.01 then Err(WeightsNotHundred)
    else Ok(PlanFor(BookOf(cash, weights, values, o), cash, o))
  }

  /** `current` and `currentTotal`: what is held of each target symbol. */
  method CurrentValues(symbols: seq<string>, values: Amounts) returns (current: Amounts, total: real)
    ensures current == Held(symbols, values)
    ensures total == Sum(values, symbols)
  {
    current, total := map[], 0.0;
    ghost var done: set<string> := {};
    for i := 0 to |symbols|
      invariant current.Keys == done && done <= set s | s in symbols
      invariant forall j :: 0 <= j < i ==> symbols[j] in done
      invariant forall s :: s in current ==> current[s] == At(values, s)
      invariant total == Sum(values, symbols[..i])
    {
      SumSnoc(values, symbols, i);
      current := current[symbols[i] := At(values, symbols[i])];
      total := total + At(values, symbols[i]);
      done := done + {symbols[i]};
    }
    assert symbols[..|symbols|] == symbols;
  }

  method TargetValues(symbols: seq<string>, weights: Amounts, total: real) returns (target: Amounts)
    ensures target == TargetMap(symbols, weights, total)
  {
    target := map[];
    ghost var done: set<string> := {};
    for i := 0 to |symbols|
      invariant target.Keys == done && done <= set s | s in symbols
      invariant forall j :: 0 <= j < i ==> symbols[j] in done
      invariant forall s :: s in target ==> target[s] == TargetOf(total, At(weights, s))
    {
      target := target[symbols[i] := TargetOf(total, At(weights, symbols[i]))];
      done := done + {symbols[i]};
    }
  }

  method RawPlan(b: Book, cash: real, o: Options) returns (add: Amounts)
    requires Distinct(b.symbols)
    ensures add == RawAdd(b, cash, o)
  {
    if o.allowSell { add := PlanWithSells(b); } else { add := PlanBuyOnly(b, cash); }
  }

  method PlanRebalance(cash: real, weights: Table, values: Amounts, o: Options)
    returns (r: Result<Plan, PlanError>)
    requires weights.Valid()
    ensures r == Rebalance(cash, weights, values, o)
  {
    if cash < 0.0 { return Err(NegativeCash); }
    var weightSum := Total(weights.at, weights.keys);
    if Abs(weightSum - 100.0) > 0.01 { return Err(WeightsNotHundred); }
    var current, currentTotal := CurrentValues(weights.keys, values);
    var targetValue := TargetValues(weights.keys, weights.at, currentTotal + cash);
    var b := Book(weights.keys, weights.at, targetValue, current, o.noBuy, o.categoryOf);
    assert b == BookOf(cash, weights, values, o);
    var plan := FinishPlan(b, cash, o);
    r := Ok(plan);
    assert r == Ok(PlanFor(BookOf(cash, weights, values, o), cash, o));
  }

  method FinishPlan(b: Book, cash: real, o: Options) returns (plan: Plan)
    requires Distinct(b.symbols)
    ensures plan == PlanFor(b, cash, o)
  {
    var add := RawPlan(b, cash, o);
    var rows, allocatedTotal := BookRows(b, add, o);
    var residual := cash - allocatedTotal;
    if residual < 0.0 { residual := 0.0; }
    plan := Plan(rows, cash, residual);
  }

  method BookRows(b: Book, add: Amounts, o: Options) returns (rows: seq<Row>, allocatedTotal: real)
    ensures rows == seq(|b.symbols|, i requires 0 <= i < |b.symbols| => RowFor(b, add, o, b.symbols[i]))
    ensures allocatedTotal == Sum(Booked(b, add, o), b.symbols)
  {
    rows, allocatedTotal := [], 0.0;
    ghost var booked := Booked(b, add, o);
    for i := 0 to |b.symbols|
      invariant |rows| == i && forall j :: 0 <= j < i ==> rows[j] == RowFor(b, add, o, b.symbols[j])
      invariant allocatedTotal == Sum(booked, b.symbols[..i])
    {
      var row := RowFor(b, add, o, b.symbols[i]);
      SumSnoc(booked, b.symbols, i);
      rows := rows + [row];
      allocatedTotal := allocatedTotal + row.addValue;
    }
    assert b.symbols[..|b.symbols|] == b.symbols;
  }
}

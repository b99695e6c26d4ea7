/**
 * What the buy-only planner promises: it spends exactly the cash, and no admissible way of spending
 * it brings the buckets closer to their targets.
 */
module AllocationProofs {
  import opened Prelude
  import opened Sums
  import opened Allocation

  // ---------------------------------------------------------------- the objective

  /** The buckets of the keys, in order of first appearance. */
  function Buckets(b: Book, keys: seq<string>): (r: seq<Bucket>)
    ensures Distinct(r)
    ensures forall s :: s in keys ==> BucketOf(b, s) in r
    ensures forall k :: k in r ==> Members(b, keys, k) != []
  {
    if keys == [] then []
    else
      var rest := Buckets(b, keys[..|keys| - 1]);
      var k := BucketOf(b, keys[|keys| - 1]);
      if k in rest then rest else rest + [k]
  }

  /** How far a bucket lies below (or, if negative, above) its target. */
  function Need(b: Book, k: Bucket): real {
    Sum(b.target, Members(b, b.symbols, k)) - Sum(b.current, Members(b, b.symbols, k))
  }

  function Bought(b: Book, x: Amounts, k: Bucket): real {
    Sum(x, Members(b, b.symbols, k))
  }

  function Misfit(b: Book, x: Amounts, ks: seq<Bucket>): real {
    if ks == [] then 0.0
    else Misfit(b, x, ks[..|ks| - 1]) + Abs(Need(b, ks[|ks| - 1]) - Bought(b, x, ks[|ks| - 1]))
  }

  /** The sum over buckets of |target - (current + bought)|. */
  function Objective(b: Book, x: Amounts): real {
    Misfit(b, x, Buckets(b, b.symbols))
  }

  /** A buy-only plan: never sells, never buys an excluded fund, spends exactly the cash. */
  ghost predicate Feasible(b: Book, cash: real, x: Amounts) {
    && (forall s :: s in b.symbols ==> At(x, s) >= 0.0)
    && (forall s :: s in b.symbols && s in b.noBuy ==> At(x, s) == 0.0)
    && Sum(x, b.symbols) == cash
  }

  // ---------------------------------------------------------------- sums over buyable funds

  lemma {:induction false} SumBuyable(b: Book, x: Amounts, keys: seq<string>)
    requires forall s :: s in keys && s in b.noBuy ==> At(x, s) == 0.0
    ensures Sum(x, Buyable(b, keys)) == Sum(x, keys)
  {
    if keys != [] {
      var front, last := keys[..|keys| - 1], keys[|keys| - 1];
      SumBuyable(b, x, front);
      if last !in b.noBuy {
        assert (Buyable(b, front) + [last])[..|Buyable(b, front)|] == Buyable(b, front);
      }
    }
  }

  lemma MulDiv(a: real, b: real, c: real)
    requires c != 0.0
    ensures a * (b / c) == (a / c) * b
  {}

  lemma DivMul(a: real, c: real)
    requires c != 0.0
    ensures (a / c) * c == a
  {}

  lemma Rescale(whole: real, w: real, total: real, f: real, part: real)
    requires total != 0.0 && f == whole / total && part == Times(whole, w / total)
    ensures part == Times(f, w)
  {
    MulDiv(whole, w, total);
  }

  lemma ScaledSum(weight: Amounts, among: seq<string>, f: real, whole: real, out: Amounts)
    requires Times(f, Sum(weight, among)) == whole
    requires forall s :: s in among ==> At(out, s) == Times(f, At(weight, s))
    ensures Sum(out, among) == whole
  {
    SumScaled(out, weight, f, among);
  }

  lemma ProportionalSharesSum(weight: Amounts, among: seq<string>, total: real, whole: real, out: Amounts)
    requires total == Sum(weight, among) && total > 0.0
    requires forall s :: s in among ==> At(out, s) == Times(whole, At(weight, s) / total)
    ensures Sum(out, among) == whole
  {
    var f := whole / total;
    forall s | s in among ensures At(out, s) == Times(f, At(weight, s)) {
      Rescale(whole, At(weight, s), total, f, At(out, s));
    }
    assert Times(f, total) == whole by { DivMul(whole, total); }
    ScaledSum(weight, among, f, whole, out);
  }

  lemma EvenSharesSum(among: seq<string>, whole: real, out: Amounts)
    requires |among| > 0
    requires forall s :: s in among ==> At(out, s) == Times(whole, 1.0 / |among| as real)
    ensures Sum(out, among) == whole
  {
    var n := |among| as real;
    SumConstant(out, Times(whole, 1.0 / n), among);
    MulDiv(whole, 1.0, n);
    DivMul(whole, n);
  }

  /** Shares of a whole add up to the whole. */
  lemma SharesSum(weight: Amounts, among: seq<string>, whole: real, out: Amounts)
    requires |among| > 0
    requires forall s :: s in among ==> At(out, s) == Times(whole, Share(weight, among, s))
    ensures Sum(out, among) == whole
  {
    if Sum(weight, among) > 0.0 {
      ProportionalSharesSum(weight, among, Sum(weight, among), whole, out);
    } else {
      EvenSharesSum(among, whole, out);
    }
  }

  // ---------------------------------------------------------------- the gaps fill the buckets

  /** What a bucket can and should absorb. */
  function Ask(b: Book, k: Bucket): real {
    if Buyable(b, Members(b, b.symbols, k)) == [] then 0.0 else Max(0.0, Need(b, k))
  }

  /** The gaps of a bucket's funds add up to what the bucket asks for. */
  lemma GapsFillBucket(b: Book, k: Bucket)
    ensures Bought(b, Gaps(b), k) == Ask(b, k)
  {
    var members, gap := Members(b, b.symbols, k), Gaps(b);
    SumBuyable(b, gap, members);
    GapsShareOut(b, k);
    var catBuyable := Buyable(b, members);
    if catBuyable != [] {
      SharesSum(b.target, catBuyable, BucketGap(b, members), gap);
    }
  }

  function BoughtIn(b: Book, x: Amounts, keys: seq<string>, ks: seq<Bucket>): real {
    if ks == [] then 0.0
    else BoughtIn(b, x, keys, ks[..|ks| - 1]) + Sum(x, Members(b, keys, ks[|ks| - 1]))
  }

  lemma {:induction false} BoughtInSnoc(b: Book, x: Amounts, keys: seq<string>, s: string, ks: seq<Bucket>)
    requires Distinct(ks)
    ensures BoughtIn(b, x, keys + [s], ks) ==
            BoughtIn(b, x, keys, ks) + if BucketOf(b, s) in ks then At(x, s) else 0.0
  {
    if ks != [] {
      var front, k := ks[..|ks| - 1], ks[|ks| - 1];
      BoughtInSnoc(b, x, keys, s, front);
      assert (keys + [s])[..|keys|] == keys;
      MembersSnoc(b, keys + [s], |keys|, k);
      if BucketOf(b, s) == k {
        assert (Members(b, keys, k) + [s])[..|Members(b, keys, k)|] == Members(b, keys, k);
      }
    }
  }

  /** A bucket opened by its first symbol holds just that symbol. */
  lemma NewBucketMembers(b: Book, keys: seq<string>, s: string)
    requires forall t :: t in keys ==> BucketOf(b, t) != BucketOf(b, s)
    ensures Members(b, keys + [s], BucketOf(b, s)) == [s]
  {
    NoMembersYet(b, keys, BucketOf(b, s));
    assert (keys + [s])[..|keys|] == keys;
  }

  lemma BoughtInNewBucket(b: Book, x: Amounts, keys: seq<string>, s: string, ks: seq<Bucket>)
    requires forall t :: t in keys ==> BucketOf(b, t) in ks
    requires Distinct(ks) && BucketOf(b, s) !in ks
    ensures BoughtIn(b, x, keys + [s], ks + [BucketOf(b, s)]) == BoughtIn(b, x, keys, ks) + At(x, s)
  {
    var k := BucketOf(b, s);
    BoughtInSnoc(b, x, keys, s, ks);
    NewBucketMembers(b, keys, s);
    assert (ks + [k])[..|ks|] == ks;
    assert Sum(x, [s]) == At(x, s) by { assert [s][..0] == []; }
  }

  /** The buckets partition the symbols, so the purchases of all buckets are all purchases. */
  lemma {:induction false} BucketsPartition(b: Book, x: Amounts, keys: seq<string>)
    ensures BoughtIn(b, x, keys, Buckets(b, keys)) == Sum(x, keys)
  {
    if keys != [] {
      var front, s := keys[..|keys| - 1], keys[|keys| - 1];
      assert keys == front + [s];
      BucketsPartition(b, x, front);
      BucketsSnoc(b, x, front, s);
    }
  }

  lemma BucketsSnoc(b: Book, x: Amounts, front: seq<string>, s: string)
    ensures BoughtIn(b, x, front + [s], Buckets(b, front + [s])) == BoughtIn(b, x, front, Buckets(b, front)) + At(x, s)
  {
    var ks := Buckets(b, front);
    assert (front + [s])[..|front|] == front;
    if BucketOf(b, s) in ks {
      BoughtInSnoc(b, x, front, s, ks);
    } else {
      BoughtInNewBucket(b, x, front, s, ks);
    }
  }

  // ---------------------------------------------------------------- lower bound and its attainment

  /** The part of a bucket's misfit no purchase can change. */
  function Fixed(b: Book, k: Bucket): real {
    if Buyable(b, Members(b, b.symbols, k)) == [] then Abs(Need(b, k)) else Max(0.0, Need(b, k)) - Need(b, k)
  }

  /** A bucket's misfit is its fixed part plus its distance from what it asks for. */
  lemma BucketMisfit(b: Book, x: Amounts, k: Bucket)
    requires BuyOnlyShape(b, x)
    ensures Abs(Need(b, k) - Bought(b, x, k)) == Fixed(b, k) + Abs(Bought(b, x, k) - Ask(b, k))
  {
    var members := Members(b, b.symbols, k);
    SumNonNegative(x, members);
    if Buyable(b, members) == [] {
      SumBuyable(b, x, members);
    }
  }

  function FixedIn(b: Book, ks: seq<Bucket>): real {
    if ks == [] then 0.0 else FixedIn(b, ks[..|ks| - 1]) + Fixed(b, ks[|ks| - 1])
  }

  /** `gap` puts into every bucket just what it asks for. */
  ghost predicate FillsBuckets(b: Book, gap: Amounts) {
    forall k :: Bought(b, gap, k) == Ask(b, k)
  }

  ghost predicate BuyOnlyShape(b: Book, x: Amounts) {
    && (forall s :: s in b.symbols ==> At(x, s) >= 0.0)
    && (forall s :: s in b.symbols && s in b.noBuy ==> At(x, s) == 0.0)
  }

  /** No plan does better than the fixed part plus the total distance from what all buckets ask for. */
  lemma {:induction false} MisfitAtLeast(b: Book, x: Amounts, gap: Amounts, ks: seq<Bucket>)
    requires BuyOnlyShape(b, x) && FillsBuckets(b, gap)
    ensures Misfit(b, x, ks) >= FixedIn(b, ks) + Abs(BoughtIn(b, x, b.symbols, ks) - BoughtIn(b, gap, b.symbols, ks))
  {
    if ks != [] {
      var front := ks[..|ks| - 1];
      MisfitAtLeast(b, x, gap, front);
      var fixed, misfit, bought, ask := MisfitSnoc(b, x, gap, ks);
      DistancesAdd(BoughtIn(b, x, b.symbols, front), BoughtIn(b, gap, b.symbols, front), bought, ask);
    }
  }

  lemma MisfitSnoc(b: Book, x: Amounts, gap: Amounts, ks: seq<Bucket>)
    returns (fixed: real, misfit: real, bought: real, ask: real)
    requires BuyOnlyShape(b, x) && FillsBuckets(b, gap) && ks != []
    ensures var front := ks[..|ks| - 1];
      && Misfit(b, x, ks) == Misfit(b, x, front) + misfit && FixedIn(b, ks) == FixedIn(b, front) + fixed
      && BoughtIn(b, x, b.symbols, ks) == BoughtIn(b, x, b.symbols, front) + bought
      && BoughtIn(b, gap, b.symbols, ks) == BoughtIn(b, gap, b.symbols, front) + ask
    ensures misfit == fixed + Abs(bought - ask)
  {
    var k := ks[|ks| - 1];
    BucketMisfit(b, x, k);
    assert Bought(b, gap, k) == Ask(b, k);
    fixed, misfit, bought, ask := Fixed(b, k), Abs(Need(b, k) - Bought(b, x, k)), Bought(b, x, k), Ask(b, k);
  }

  lemma DistancesAdd(x: real, y: real, p: real, q: real)
    ensures Abs((x + p) - (y + q)) <= Abs(x - y) + Abs(p - q)
  {}

  /** A plan that never exceeds the gaps attains that bound. */
  lemma {:induction false} MisfitBelow(b: Book, x: Amounts, gap: Amounts, ks: seq<Bucket>)
    requires BuyOnlyShape(b, x) && FillsBuckets(b, gap)
    requires forall s :: s in b.symbols ==> At(x, s) <= At(gap, s)
    ensures Misfit(b, x, ks) == FixedIn(b, ks) + BoughtIn(b, gap, b.symbols, ks) - BoughtIn(b, x, b.symbols, ks)
  {
    if ks != [] {
      var k := ks[|ks| - 1];
      MisfitBelow(b, x, gap, ks[..|ks| - 1]);
      BucketMisfit(b, x, k);
      assert Bought(b, gap, k) == Ask(b, k);
      SumMonotone(x, gap, Members(b, b.symbols, k));
    }
  }

  /** So does a plan that never falls short of the gaps. */
  lemma {:induction false} MisfitAbove(b: Book, x: Amounts, gap: Amounts, ks: seq<Bucket>)
    requires BuyOnlyShape(b, x) && FillsBuckets(b, gap)
    requires forall s :: s in b.symbols ==> At(x, s) >= At(gap, s)
    ensures Misfit(b, x, ks) == FixedIn(b, ks) + BoughtIn(b, x, b.symbols, ks) - BoughtIn(b, gap, b.symbols, ks)
  {
    if ks != [] {
      var k := ks[|ks| - 1];
      MisfitAbove(b, x, gap, ks[..|ks| - 1]);
      BucketMisfit(b, x, k);
      assert Bought(b, gap, k) == Ask(b, k);
      SumMonotone(gap, x, Members(b, b.symbols, k));
    }
  }

  // ---------------------------------------------------------------- theorems

  lemma ShareNonNegative(weight: Amounts, among: seq<string>, s: string)
    requires |among| > 0 && At(weight, s) >= 0.0
    ensures Share(weight, among, s) >= 0.0
  {
    if Sum(weight, among) > 0.0 {
      QuotientNonNegative(At(weight, s), Sum(weight, among));
    } else {
      QuotientNonNegative(1.0, |among| as real);
    }
  }

  lemma QuotientNonNegative(a: real, c: real)
    requires a >= 0.0 && c > 0.0
    ensures a / c >= 0.0
  {}

  lemma ProductNonNegative(a: real, c: real)
    requires a >= 0.0 && c >= 0.0
    ensures Times(a, c) >= 0.0
  {}

  lemma QuotientAtMost(a: real, c: real, d: real)
    requires c > 0.0 && a <= d * c
    ensures a / c <= d
  {}

  lemma ProductMonotone(a: real, c: real, d: real)
    requires a >= 0.0 && c <= d
    ensures a * c <= a * d
  {}

  /** A part of an amount, with the part no larger than the whole, lies between zero and the amount. */
  lemma ProratedBetween(a: real, part: real, whole: real)
    requires a >= 0.0 && 0.0 <= part <= whole && whole > 0.0
    ensures 0.0 <= Prorated(a, part, whole) <= a
    ensures Prorated(a, part, whole) == Times(part / whole, a)
  {
    MulDiv(a, part, whole);
    ProductNonNegative(a, part);
    QuotientNonNegative(a * part, whole);
    ProductMonotone(a, part, whole);
    QuotientAtMost(a * part, whole, a);
  }

  /** What the portfolio arithmetic guarantees of a book with non-negative weights. */
  ghost predicate Sane(b: Book) {
    && Distinct(b.symbols)
    && (forall s :: s in b.symbols ==> At(b.weights, s) >= 0.0)
    && (|| (forall s :: s in b.symbols ==> At(b.target, s) >= 0.0)
        || (forall s :: s in b.symbols ==> At(b.target, s) <= 0.0))
  }

  lemma {:induction false} SumNonPositive(m: Amounts, keys: seq<string>)
    requires forall k :: k in keys ==> At(m, k) <= 0.0
    ensures Sum(m, keys) <= 0.0
  {
    if keys != [] { SumNonPositive(m, keys[..|keys| - 1]); }
  }

  lemma GapsNonNegative(b: Book)
    requires Sane(b)
    ensures forall s :: s in b.symbols ==> At(Gaps(b), s) >= 0.0
  {
    forall s | s in b.symbols && s !in b.noBuy ensures At(Gaps(b), s) >= 0.0 {
      var members := Members(b, b.symbols, BucketOf(b, s));
      var among := Buyable(b, members);
      assert s in among;
      if forall t :: t in b.symbols ==> At(b.target, t) >= 0.0 {
        ShareNonNegative(b.target, among, s);
      } else {
        SumNonPositive(b.target, among);
        QuotientNonNegative(1.0, |among| as real);
      }
      ProductNonNegative(BucketGap(b, members), Share(b.target, among, s));
      assert At(Gaps(b), s) == GapOf(b, s);
    }
  }

  lemma ProratedAll(gap: Amounts, add: Amounts, keys: seq<string>, cash: real, total: real) returns (f: real)
    requires 0.0 <= cash < total
    requires forall s :: s in keys ==> At(gap, s) >= 0.0 && At(add, s) == Prorated(At(gap, s), cash, total)
    ensures Times(f, total) == cash
    ensures forall s :: s in keys ==> 0.0 <= At(add, s) <= At(gap, s) && At(add, s) == Times(f, At(gap, s))
  {
    f := cash / total;
    DivMul(cash, total);
    forall s | s in keys ensures 0.0 <= At(add, s) <= At(gap, s) && At(add, s) == Times(f, At(gap, s)) {
      ProratedBetween(At(gap, s), cash, total);
    }
  }

  /** Amounts prorated from `gap` by the same fraction. */
  lemma ProratedPlan(gap: Amounts, add: Amounts, keys: seq<string>, cash: real, total: real)
    requires total == Sum(gap, keys) && 0.0 <= cash < total
    requires forall s :: s in keys ==> At(gap, s) >= 0.0 && At(add, s) == Prorated(At(gap, s), cash, total)
    ensures forall s :: s in keys ==> 0.0 <= At(add, s) <= At(gap, s)
    ensures Sum(add, keys) == cash
  {
    var f := ProratedAll(gap, add, keys, cash, total);
    ScaledSum(gap, keys, f, cash, add);
  }

  /** `gap` and on top of it a share of the remainder. */
  lemma ToppedUpPlan(gap: Amounts, add: Amounts, weight: Amounts, keys: seq<string>, rest: real)
    requires |keys| > 0 && rest >= 0.0
    requires forall s :: s in keys ==>
      At(weight, s) >= 0.0 && At(add, s) == At(gap, s) + Times(rest, Share(weight, keys, s))
    ensures forall s :: s in keys ==> At(add, s) >= At(gap, s)
    ensures Sum(add, keys) == Sum(gap, keys) + rest
  {
    var top: Amounts := map s | s in keys :: Times(rest, Share(weight, keys, s));
    forall s | s in keys ensures At(top, s) == Times(rest, Share(weight, keys, s)) && At(top, s) >= 0.0 {
      ShareNonNegative(weight, keys, s);
      ProductNonNegative(rest, Share(weight, keys, s));
    }
    SumAdd(add, gap, top, keys);
    SharesSum(weight, keys, rest, top);
  }

  /** A starting point for a plan: non-negative amounts on the funds that may be bought. */
  ghost predicate Gapped(b: Book, gap: Amounts) {
    Sane(b) && BuyOnlyShape(b, gap)
  }

  /** The branch for too little cash: every gap is met in the same proportion. */
  lemma ScaledBranch(b: Book, cash: real, gap: Amounts)
    requires Gapped(b, gap) && 0.0 <= cash < Sum(gap, Buyable(b, b.symbols))
    ensures forall s :: s in Buyable(b, b.symbols) ==> 0.0 <= At(PlanFrom(b, cash, gap), s) <= At(gap, s)
    ensures Sum(PlanFrom(b, cash, gap), Buyable(b, b.symbols)) == cash
  {
    ProratedPlan(gap, PlanFrom(b, cash, gap), Buyable(b, b.symbols), cash, Sum(gap, Buyable(b, b.symbols)));
  }

  /** The branch for cash to spare: every gap is met, and the rest is shared by weight. */
  lemma OverflowBranch(b: Book, cash: real, gap: Amounts)
    requires Gapped(b, gap) && Sum(gap, Buyable(b, b.symbols)) < cash
    ensures forall s :: s in Buyable(b, b.symbols) ==> At(PlanFrom(b, cash, gap), s) >= At(gap, s)
    ensures Buyable(b, b.symbols) != [] ==> Sum(PlanFrom(b, cash, gap), Buyable(b, b.symbols)) == cash
  {
    var buyable := Buyable(b, b.symbols);
    if buyable != [] {
      ToppedUpPlan(gap, PlanFrom(b, cash, gap), b.weights, buyable, cash - Sum(gap, buyable));
    }
  }

  /** With cash matching the gaps exactly, the plan is the gaps. */
  lemma ExactBranch(b: Book, cash: real, gap: Amounts)
    requires cash == Sum(gap, Buyable(b, b.symbols))
    ensures forall s :: s in Buyable(b, b.symbols) ==> At(PlanFrom(b, cash, gap), s) == At(gap, s)
    ensures Sum(PlanFrom(b, cash, gap), Buyable(b, b.symbols)) == cash
  {
    SumSame(PlanFrom(b, cash, gap), gap, Buyable(b, b.symbols));
  }

  lemma NothingExcluded(b: Book, cash: real, gap: Amounts)
    ensures forall s :: s in b.symbols && s in b.noBuy ==> At(PlanFrom(b, cash, gap), s) == 0.0
    ensures Sum(PlanFrom(b, cash, gap), b.symbols) == Sum(PlanFrom(b, cash, gap), Buyable(b, b.symbols))
  {
    SumBuyable(b, PlanFrom(b, cash, gap), b.symbols);
  }

  /** Whatever the gaps, the plan spends the cash if there is a fund to spend it on. */
  lemma PlanSpendsTheCash(b: Book, cash: real, gap: Amounts)
    requires Gapped(b, gap) && cash >= 0.0
    ensures BuyOnlyShape(b, PlanFrom(b, cash, gap))
    ensures Sum(PlanFrom(b, cash, gap), b.symbols) == if Buyable(b, b.symbols) == [] then 0.0 else cash
  {
    NothingExcluded(b, cash, gap);
    if cash < Sum(gap, Buyable(b, b.symbols)) {
      ScaledBranch(b, cash, gap);
    } else if Sum(gap, Buyable(b, b.symbols)) < cash {
      OverflowBranch(b, cash, gap);
    } else {
      ExactBranch(b, cash, gap);
    }
  }

  lemma GapsAreGapped(b: Book)
    requires Sane(b)
    ensures Gapped(b, Gaps(b))
  {
    GapsNonNegative(b);
  }

  /**
   * Conservation: the plan buys nothing negative and nothing excluded, and it spends exactly the
   * cash, unless there is cash but no fund it may buy, in which case it spends nothing.
   */
  lemma BuyOnlySpendsTheCash(b: Book, cash: real)
    requires Sane(b) && cash >= 0.0
    ensures BuyOnlyShape(b, BuyOnly(b, cash))
    ensures Sum(BuyOnly(b, cash), b.symbols) == if Buyable(b, b.symbols) == [] then 0.0 else cash
    ensures Feasible(b, cash, BuyOnly(b, cash)) <==> (Buyable(b, b.symbols) != [] || cash == 0.0)
  {
    GapsAreGapped(b);
    PlanSpendsTheCash(b, cash, Gaps(b));
  }

  lemma FeasibleNeedsBuyable(b: Book, cash: real, x: Amounts)
    requires Feasible(b, cash, x)
    ensures Buyable(b, b.symbols) != [] || cash == 0.0
  {
    SumBuyable(b, x, b.symbols);
  }

  /** A plan made from gaps that fill the buckets attains the bound. */
  lemma PlanMisfit(b: Book, cash: real, gap: Amounts, ks: seq<Bucket>)
    requires Gapped(b, gap) && FillsBuckets(b, gap) && cash >= 0.0
    ensures var add := PlanFrom(b, cash, gap);
      Misfit(b, add, ks) == FixedIn(b, ks) +
        if cash < Sum(gap, Buyable(b, b.symbols))
        then BoughtIn(b, gap, b.symbols, ks) - BoughtIn(b, add, b.symbols, ks)
        else BoughtIn(b, add, b.symbols, ks) - BoughtIn(b, gap, b.symbols, ks)
  {
    NothingExcluded(b, cash, gap);
    PlanSpendsTheCash(b, cash, gap);
    if cash < Sum(gap, Buyable(b, b.symbols)) {
      ScaledBranch(b, cash, gap);
      MisfitBelow(b, PlanFrom(b, cash, gap), gap, ks);
    } else {
      if Sum(gap, Buyable(b, b.symbols)) < cash { OverflowBranch(b, cash, gap); } else { ExactBranch(b, cash, gap); }
      MisfitAbove(b, PlanFrom(b, cash, gap), gap, ks);
    }
  }

  /**
   * Optimality: no feasible way of spending the cash brings the buckets closer to their targets,
   * whether a bucket is a fund or a category, and whichever branch produced the plan.
   */
  lemma BuyOnlyIsOptimal(b: Book, cash: real, x: Amounts)
    requires Sane(b) && cash >= 0.0 && Feasible(b, cash, x)
    ensures Feasible(b, cash, BuyOnly(b, cash))
    ensures Objective(b, BuyOnly(b, cash)) <= Objective(b, x)
  {
    FeasibleNeedsBuyable(b, cash, x);
    BuyOnlySpendsTheCash(b, cash);
    GapsAreGapped(b);
    forall k ensures Bought(b, Gaps(b), k) == Ask(b, k) { GapsFillBucket(b, k); }
    PlanIsOptimal(b, cash, Gaps(b), x);
  }

  lemma PlanIsOptimal(b: Book, cash: real, gap: Amounts, x: Amounts)
    requires Gapped(b, gap) && FillsBuckets(b, gap) && cash >= 0.0
    requires Feasible(b, cash, x) && Sum(PlanFrom(b, cash, gap), b.symbols) == cash
    ensures Objective(b, PlanFrom(b, cash, gap)) <= Objective(b, x)
  {
    BucketsPartition(b, x, b.symbols);
    BucketsPartition(b, PlanFrom(b, cash, gap), b.symbols);
    BucketsPartition(b, gap, b.symbols);
    SumBuyable(b, gap, b.symbols);
    PlanMisfit(b, cash, gap, Buckets(b, b.symbols));
    Beats(b, cash, gap, PlanFrom(b, cash, gap), x, Buckets(b, b.symbols));
  }

  lemma Beats(b: Book, cash: real, gap: Amounts, add: Amounts, x: Amounts, ks: seq<Bucket>)
    requires FillsBuckets(b, gap) && BuyOnlyShape(b, x)
    requires BoughtIn(b, x, b.symbols, ks) == cash == BoughtIn(b, add, b.symbols, ks)
    requires Misfit(b, add, ks) == FixedIn(b, ks) + Abs(cash - BoughtIn(b, gap, b.symbols, ks))
    ensures Misfit(b, add, ks) <= Misfit(b, x, ks)
  {
    MisfitAtLeast(b, x, gap, ks);
  }
}

/**
 * Percentages that must add up to 100: `scaleTo100` and `roundTo100` of web/src/allocation.ts.
 */
module WeightRounding {
  import opened Prelude
  import opened Sums
  import opened Rounding
  import opened Allocation
  import opened AllocationProofs

  function PositiveKeys(m: Amounts, keys: seq<string>): (r: seq<string>)
    ensures forall k :: k in r <==> k in keys && At(m, k) > 0.0
    ensures Distinct(keys) ==> Distinct(r)
  {
    if keys == [] then []
    else
      var rest := PositiveKeys(m, keys[..|keys| - 1]);
      var last := keys[|keys| - 1];
      if At(m, last) > 0.0 then rest + [last] else rest
  }

  function Percent(w: real, total: real): real
    requires total != 0.0
  {
    w * 100.0 / total
  }

  function ScaledTo100(w: Table): Table {
    var keys := PositiveKeys(w.at, w.keys);
    var total := Sum(w.at, keys);
    if total <= 0.0 then Table([], map[]) else Table(keys, map k | k in keys :: Percent(At(w.at, k), total))
  }

  /** The first key whose value no other exceeds. */
  function Biggest(m: Amounts, keys: seq<string>): (r: string)
    requires keys != []
    ensures r in keys && forall k :: k in keys ==> At(m, k) <= At(m, r)
  {
    if |keys| == 1 then keys[0]
    else
      var before := Biggest(m, keys[..|keys| - 1]);
      if At(m, keys[|keys| - 1]) > At(m, before) then keys[|keys| - 1] else before
  }

  function Rounded(w: Table): Amounts {
    map k | k in PositiveKeys(w.at, w.keys) :: ToDecimalPlaces(At(w.at, k), 1)
  }

  function Absorbed(keys: seq<string>, rounded: Amounts): Amounts {
    var residual := 100.0 - Sum(rounded, keys);
    if keys == [] || residual == 0.0 then rounded
    else
      var b := Biggest(rounded, keys);
      rounded[b := At(rounded, b) + residual]
  }

  function RoundedTo100(w: Table): Table {
    var keys := PositiveKeys(w.at, w.keys);
    Table(keys, Absorbed(keys, Rounded(w)))
  }

  // ---------------------------------------------------------------- the loops

  lemma PositiveSnoc(m: Amounts, seen: seq<string>, k: string)
    ensures var before := PositiveKeys(m, seen);
      && PositiveKeys(m, seen + [k]) == (if At(m, k) > 0.0 then before + [k] else before)
      && Sum(m, before + [k]) == Sum(m, before) + At(m, k)
  {
    var before := PositiveKeys(m, seen);
    assert (seen + [k])[..|seen|] == seen;
    assert (before + [k])[..|before|] == before;
  }

  /** Sums and collects the positive entries. */
  method PositivePart(w: Table) returns (keys: seq<string>, total: real)
    ensures keys == PositiveKeys(w.at, w.keys) && total == Sum(w.at, keys)
  {
    keys, total := [], 0.0;
    for i := 0 to |w.keys|
      invariant keys == PositiveKeys(w.at, w.keys[..i]) && total == Sum(w.at, keys)
    {
      keys, total := AddPositive(w.at, keys, total, w.keys[i], w.keys[..i]);
      assert w.keys[..i] + [w.keys[i]] == w.keys[..i + 1];
    }
    assert w.keys[..|w.keys|] == w.keys;
  }

  method AddPositive(m: Amounts, keys: seq<string>, total: real, k: string, ghost seen: seq<string>)
    returns (keys': seq<string>, total': real)
    requires keys == PositiveKeys(m, seen) && total == Sum(m, keys)
    ensures keys' == PositiveKeys(m, seen + [k]) && total' == Sum(m, keys')
  {
    keys', total' := keys, total;
    PositiveSnoc(m, seen, k);
    if At(m, k) > 0.0 { keys', total' := keys + [k], total + At(m, k); }
  }

  /** Fills a map with a value for each of the keys. */
  method FillMap(keys: seq<string>, value: string -> real) returns (m: Amounts)
    ensures m == map k | k in keys :: value(k)
  {
    m := map[];
    ghost var done: set<string> := {};
    for i := 0 to |keys|
      invariant m.Keys == done && done <= set k | k in keys
      invariant forall j :: 0 <= j < i ==> keys[j] in done
      invariant forall k :: k in m ==> m[k] == value(k)
    {
      m := m[keys[i] := value(keys[i])];
      done := done + {keys[i]};
    }
  }

  method ScaleTo100(w: Table) returns (r: Table)
    ensures r == ScaledTo100(w)
  {
    var keys, total := PositivePart(w);
    if total <= 0.0 { return Table([], map[]); }
    var m := FillMap(keys, k => Percent(At(w.at, k), total));
    r := Table(keys, m);
  }

  /** The loop that looks for the entry to absorb the residual. */
  method FindBiggest(m: Amounts, keys: seq<string>) returns (biggest: Option<string>)
    ensures biggest == if keys == [] then None else Some(Biggest(m, keys))
  {
    biggest := None;
    for i := 0 to |keys|
      invariant biggest == if i == 0 then None else Some(Biggest(m, keys[..i]))
    {
      assert keys[..i + 1][..i] == keys[..i];
      if biggest.None? || At(m, keys[i]) > At(m, biggest.value) { biggest := Some(keys[i]); }
    }
    assert keys[..|keys|] == keys;
  }

  /** Adds what is missing to 100 to the biggest entry. */
  method AbsorbResidual(keys: seq<string>, rounded: Amounts) returns (m: Amounts)
    ensures m == Absorbed(keys, rounded)
  {
    m := rounded;
    if |keys| == 0 { return; }
    var sum := Total(rounded, keys);
    var residual := 100.0 - sum;
    if residual != 0.0 {
      var biggest := FindBiggest(rounded, keys);
      if biggest.Some? {
        m := m[biggest.value := At(m, biggest.value) + residual];
      }
    }
  }

  method RoundTo100(w: Table) returns (r: Table)
    ensures r == RoundedTo100(w)
  {
    var keys, _ := PositivePart(w);
    var rounded := FillMap(keys, k => ToDecimalPlaces(At(w.at, k), 1));
    assert rounded == Rounded(w);
    rounded := AbsorbResidual(keys, rounded);
    r := Table(keys, rounded);
  }

  // ---------------------------------------------------------------- scaling

  lemma {:induction false} PositiveKeysIdempotent(m: Amounts, keys: seq<string>)
    requires forall k :: k in keys ==> At(m, k) > 0.0
    ensures PositiveKeys(m, keys) == keys
  {
    if keys != [] {
      PositiveKeysIdempotent(m, keys[..|keys| - 1]);
      WholeIsSnoc(keys);
    }
  }

  lemma PercentScales(w: real, total: real)
    requires total > 0.0
    ensures w > 0.0 ==> Percent(w, total) > 0.0
    ensures Percent(w, total) == Times(100.0 / total, w)
  {
    MulDiv(w, 100.0, total);
    MulDiv(100.0, w, total);
    if w > 0.0 {
      assert w * 100.0 > 0.0;
      QuotientPositive(w * 100.0, total);
    }
  }

  lemma QuotientPositive(a: real, c: real)
    requires a > 0.0 && c > 0.0
    ensures a / c > 0.0
  {}

  lemma {:induction false} SumPositive(m: Amounts, keys: seq<string>)
    requires keys != [] && forall k :: k in keys ==> At(m, k) > 0.0
    ensures Sum(m, keys) > 0.0
  {
    if |keys| > 1 {
      SumPositive(m, keys[..|keys| - 1]);
    } else {
      assert keys[..0] == [];
    }
  }

  /** Scaling keeps exactly the positive entries, positive, in the same order, and makes them sum to 100. */
  lemma ScalingSumsTo100(w: Table)
    requires exists k :: k in w.keys && At(w.at, k) > 0.0
    ensures var s, keys := ScaledTo100(w), PositiveKeys(w.at, w.keys);
      s.keys == keys != [] && (forall k :: k in s.at <==> k in keys)
      && (forall k :: k in keys ==> At(s.at, k) > 0.0)
      && Sum(s.at, keys) == 100.0
  {
    var keys := PositiveKeys(w.at, w.keys);
    var total := Sum(w.at, keys);
    SumPositive(w.at, keys);
    var s := ScaledTo100(w);
    forall k | k in keys ensures At(s.at, k) > 0.0 && At(s.at, k) == Times(100.0 / total, At(w.at, k)) {
      PercentScales(At(w.at, k), total);
    }
    ScaledSumIs100(w.at, keys, total, s.at);
  }

  lemma ScaledSumIs100(w: Amounts, keys: seq<string>, total: real, out: Amounts)
    requires total == Sum(w, keys) > 0.0
    requires forall k :: k in keys ==> At(out, k) == Times(100.0 / total, At(w, k))
    ensures Sum(out, keys) == 100.0
  {
    DivMul(100.0, total);
    ScaledSum(w, keys, 100.0 / total, 100.0, out);
  }

  // ---------------------------------------------------------------- rounding

  function Tenths(w: real): int { HalfEven(w * 10.0) }

  lemma RoundingToTenths(w: real)
    ensures ToDecimalPlaces(w, 1) == Tenths(w) as real / 10.0
    ensures -0.05 <= w - ToDecimalPlaces(w, 1) <= 0.05
    ensures w > 0.0 ==> Tenths(w) >= 0
  {
    assert Pow10(1) == 10 by { assert Pow10(0) == 1; }
    HalfEvenNearest(w * 10.0, 0);
  }

  function Constant(keys: seq<string>, c: real): Amounts {
    map k | k in keys :: c
  }

  /** Values of at most `c`, one of them left out of account. */
  lemma OthersAtMost(m: Amounts, keys: seq<string>, b: string, c: real)
    requires Distinct(keys) && b in keys && forall k :: k in keys && k != b ==> At(m, k) <= c
    ensures Sum(m, keys) - At(m, b) <= c * |keys| as real - c
  {
    SumUpdate(m, keys, b, c);
    SumConstant(Constant(keys, c), c, keys);
    SumMonotone(m[b := c], Constant(keys, c), keys);
  }

  lemma OthersAtLeast(m: Amounts, keys: seq<string>, b: string, c: real)
    requires Distinct(keys) && b in keys && forall k :: k in keys && k != b ==> At(m, k) >= c
    ensures Sum(m, keys) - At(m, b) >= c * |keys| as real - c
  {
    SumUpdate(m, keys, b, c);
    SumConstant(Constant(keys, c), c, keys);
    SumMonotone(Constant(keys, c), m[b := c], keys);
  }

  /** Weights ready to be rounded: distinct keys with positive values that sum to 100. */
  ghost predicate Percentages(w: Table) {
    && Distinct(w.keys) && w.keys != [] && (forall k :: k in w.keys ==> At(w.at, k) > 0.0)
    && Sum(w.at, w.keys) == 100.0
  }

  /** Rounding keeps the keys, makes the values sum to exactly 100, and changes only one of them beyond rounding. */
  lemma RoundingSumsTo100(w: Table)
    requires Percentages(w)
    ensures var r := RoundedTo100(w);
      r.keys == w.keys && (forall k :: k in r.at <==> k in w.keys) && Sum(r.at, w.keys) == 100.0
    ensures var r, rounded := RoundedTo100(w), Rounded(w);
      var b := Biggest(rounded, w.keys);
      && (forall k :: k in w.keys && k != b ==> At(r.at, k) == At(rounded, k))
      && At(r.at, b) == At(rounded, b) + 100.0 - Sum(rounded, w.keys)
  {
    PositiveKeysIdempotent(w.at, w.keys);
    AbsorbedSums(w.keys, Rounded(w));
  }

  lemma AbsorbedSums(keys: seq<string>, rounded: Amounts)
    requires Distinct(keys) && keys != [] && forall k :: k in rounded <==> k in keys
    ensures var m, b := Absorbed(keys, rounded), Biggest(rounded, keys);
      && (forall k :: k in m <==> k in keys) && Sum(m, keys) == 100.0
      && (forall k :: k in keys && k != b ==> At(m, k) == At(rounded, k))
      && At(m, b) == At(rounded, b) + 100.0 - Sum(rounded, keys)
  {
    var b := Biggest(rounded, keys);
    SumUpdate(rounded, keys, b, At(rounded, b) + 100.0 - Sum(rounded, keys));
  }

  lemma RoundedValue(w: Table, k: string)
    requires Percentages(w) && k in w.keys
    ensures At(Rounded(w), k) == Tenths(At(w.at, k)) as real / 10.0 >= 0.0
    ensures -0.05 <= At(w.at, k) - At(Rounded(w), k) <= 0.05
  {
    PositiveKeysIdempotent(w.at, w.keys);
    RoundingToTenths(At(w.at, k));
  }

  /** Every entry but `b` is within 0.05 of its weight, and `b` within 0.05 for each other entry. */
  ghost predicate ErrorsWithin(w: Table, r: Amounts, b: string) {
    && (forall k :: k in w.keys && k != b ==> Abs(At(r, k) - At(w.at, k)) <= 0.05)
    && Abs(At(r, b) - At(w.at, b)) <= 0.05 * (|w.keys| - 1) as real
  }

  /**
   * How far rounding moves the weights: every entry stays within 0.05 of what it was, except the
   * one that absorbs the residual, which stays within 0.05 for each other entry.
   */
  lemma RoundingErrors(w: Table)
    requires Percentages(w)
    ensures ErrorsWithin(w, RoundedTo100(w).at, Biggest(Rounded(w), w.keys))
  {
    RoundingSumsTo100(w);
    forall k | k in w.keys ensures -0.05 <= At(w.at, k) - At(Rounded(w), k) <= 0.05 { RoundedValue(w, k); }
    ErrorsFrom(w, Rounded(w), RoundedTo100(w).at, Biggest(Rounded(w), w.keys));
  }

  lemma ErrorsFrom(w: Table, rounded: Amounts, r: Amounts, b: string)
    requires Percentages(w) && b in w.keys
    requires forall k :: k in w.keys ==> -0.05 <= At(w.at, k) - At(rounded, k) <= 0.05
    requires forall k :: k in w.keys && k != b ==> At(r, k) == At(rounded, k)
    requires At(r, b) == At(rounded, b) + 100.0 - Sum(rounded, w.keys)
    ensures ErrorsWithin(w, r, b)
  {
    AbsorbedErrorBound(w, rounded, b);
  }

  lemma AbsorbedErrorBound(w: Table, rounded: Amounts, b: string)
    requires Percentages(w) && b in w.keys
    requires forall k :: k in w.keys ==> -0.05 <= At(w.at, k) - At(rounded, k) <= 0.05
    ensures Abs(At(rounded, b) + 100.0 - Sum(rounded, w.keys) - At(w.at, b)) <= 0.05 * (|w.keys| - 1) as real
  {
    var errors: Amounts := map k | k in w.keys :: if k == b then 0.0 else At(w.at, k) - At(rounded, k);
    SumOfErrors(errors, w.keys, b);
    AbsorbedError(w, errors, rounded, b);
  }

  lemma SumOfErrors(errors: Amounts, keys: seq<string>, b: string)
    requires Distinct(keys) && b in keys && At(errors, b) == 0.0
    requires forall k :: k in keys ==> -0.05 <= At(errors, k) <= 0.05
    ensures Abs(Sum(errors, keys)) <= 0.05 * (|keys| - 1) as real
  {
    OthersAtMost(errors, keys, b, 0.05);
    OthersAtLeast(errors, keys, b, -0.05);
  }

  /** The absorbing entry moves by the sum of the other entries' errors. */
  lemma AbsorbedError(w: Table, errors: Amounts, rounded: Amounts, b: string)
    requires Distinct(w.keys) && b in w.keys && At(errors, b) == 0.0
    requires forall k :: k in w.keys && k != b ==> At(errors, k) == At(w.at, k) - At(rounded, k)
    ensures At(rounded, b) + Sum(w.at, w.keys) - Sum(rounded, w.keys) - At(w.at, b) == Sum(errors, w.keys)
  {
    var same := rounded[b := At(w.at, b)];
    SumUpdate(rounded, w.keys, b, At(w.at, b));
    SumAdd(w.at, same, errors, w.keys);
  }

  // ---------------------------------------------------------------- negative weights

  /** The absorbing entry cannot fall below zero as long as there are at most 46 entries. */
  lemma NoNegativeUpTo46(w: Table, k: string)
    requires Percentages(w) && |w.keys| <= 46 && k in w.keys
    ensures At(RoundedTo100(w).at, k) >= 0.0
  {
    RoundingSumsTo100(w);
    RoundedValue(w, k);
    if k == Biggest(Rounded(w), w.keys) { BiggestNotNegative(w, k); }
  }

  lemma BiggestNotNegative(w: Table, b: string)
    requires Percentages(w) && |w.keys| <= 46 && b == Biggest(Rounded(w), w.keys)
    ensures At(RoundedTo100(w).at, b) >= 0.0
  {
    RoundedValue(w, b);
    if Tenths(At(w.at, b)) <= 22 {
      RoundingSumsTo100(w);
      SmallBiggest(Rounded(w), w.keys, b, At(Rounded(w), b));
    } else {
      BigBiggest(w, b);
    }
  }

  /** A big entry can absorb what 45 others were rounded by. */
  lemma BigBiggest(w: Table, b: string)
    requires Percentages(w) && |w.keys| <= 46 && b == Biggest(Rounded(w), w.keys) && At(w.at, b) >= 2.25
    ensures At(RoundedTo100(w).at, b) >= 0.0
  {
    RoundingErrors(w);
  }

  /** If the biggest entry is small, the others cannot exceed 100 together. */
  lemma SmallBiggest(rounded: Amounts, keys: seq<string>, b: string, c: real)
    requires Distinct(keys) && |keys| <= 46 && b in keys && 0.0 <= c <= 2.2
    requires At(rounded, b) == c && forall k :: k in keys ==> At(rounded, k) <= c
    ensures Sum(rounded, keys) - At(rounded, b) <= 99.0
  {
    OthersAtMost(rounded, keys, b, c);
    SmallTotal(c, |keys| as real);
  }

  lemma SmallTotal(c: real, x: real)
    requires 1.0 <= x <= 46.0 && 0.0 <= c <= 2.2
    ensures c * x - c <= 99.0
  {
    OneFewer(c, x);
    UpTo99(c, x - 1.0);
  }

  lemma UpTo99(c: real, x: real)
    requires 0.0 <= x <= 45.0 && 0.0 <= c <= 2.2
    ensures c * x <= 99.0
  {
    AtMostTimes(c, 2.2, x);
    assert 2.2 * x <= 99.0;
  }

  lemma AtMostTimes(c: real, d: real, x: real)
    requires c <= d && x >= 0.0
    ensures c * x <= d * x
  {}

  lemma OneFewer(c: real, x: real)
    ensures c * x - c == c * (x - 1.0)
  {}

  /**
   * `roundTo100(scaleTo100(w))` for weights of which some are positive: exactly the positive keys,
   * summing to exactly 100, each near its scaled weight, and none negative if there are at most 46.
   */
  lemma RoundedScaledWeights(w: Table)
    requires Distinct(w.keys) && exists k :: k in w.keys && At(w.at, k) > 0.0
    ensures var keys, s := PositiveKeys(w.at, w.keys), ScaledTo100(w);
      var r := RoundedTo100(s);
      && r.keys == keys && (forall k :: k in r.at <==> k in keys)
      && Sum(r.at, keys) == 100.0
      && ErrorsWithin(s, r.at, Biggest(Rounded(s), keys))
      && (|keys| <= 46 ==> forall k :: k in keys ==> At(r.at, k) >= 0.0)
  {
    var s := ScaledTo100(w);
    ScalingSumsTo100(w);
    RoundingSumsTo100(s);
    RoundingErrors(s);
    if |s.keys| <= 46 {
      forall k | k in s.keys ensures At(RoundedTo100(s).at, k) >= 0.0 { NoNegativeUpTo46(s, k); }
    }
  }

  // ---------------------------------------------------------------- proportions

  /** The percentage that a weight is of all positive ones. */
  predicate IsPercentage(p: real, weight: real, total: real) { p * total == 100.0 * weight }

  /** Scaling keeps proportions: every positive entry becomes its percentage of their sum. */
  lemma {:induction false} ScalingKeepsProportions(w: Table, k: string)
    requires k in w.keys && At(w.at, k) > 0.0
    ensures Sum(w.at, PositiveKeys(w.at, w.keys)) > 0.0
    ensures IsPercentage(At(ScaledTo100(w).at, k), At(w.at, k), Sum(w.at, PositiveKeys(w.at, w.keys)))
  {
    SumPositive(w.at, PositiveKeys(w.at, w.keys));
    PercentIsPercentage(At(w.at, k), Sum(w.at, PositiveKeys(w.at, w.keys)));
  }

  lemma {:induction false} PercentIsPercentage(weight: real, total: real)
    requires total > 0.0
    ensures IsPercentage(Percent(weight, total), weight, total)
  {
    DivMul(weight * 100.0, total);
  }

  /** So two positive entries stay in the same ratio. */
  lemma {:induction false} ScalingKeepsRatios(w: Table, j: string, k: string)
    requires j in w.keys && k in w.keys && At(w.at, j) > 0.0 && At(w.at, k) > 0.0
    ensures InRatio(At(ScaledTo100(w).at, j), At(ScaledTo100(w).at, k), At(w.at, j), At(w.at, k))
  {
    ScalingKeepsProportions(w, j);
    ScalingKeepsProportions(w, k);
    SameRatio(At(ScaledTo100(w).at, j), At(ScaledTo100(w).at, k), At(w.at, j), At(w.at, k),
              Sum(w.at, PositiveKeys(w.at, w.keys)));
  }

  lemma {:induction false} SameRatio(p: real, q: real, a: real, b: real, total: real)
    requires total > 0.0 && IsPercentage(p, a, total) && IsPercentage(q, b, total)
    ensures InRatio(p, q, a, b)
  {
    assert (p * b) * total == 100.0 * a * b == (q * a) * total;
    Cancelled(p * b, q * a, total);
  }

  lemma {:induction false} Cancelled(x: real, y: real, c: real)
    requires c > 0.0 && x * c == y * c
    ensures x == y
  {}

  /** `r` holds a number within `bound` of the percentage that the weight is of the total. */
  ghost predicate NearPercentage(r: real, weight: real, total: real, bound: real) {
    exists p: real :: IsPercentage(p, weight, total) && Abs(r - p) <= bound
  }

  /**
   * Both steps measured against the weights themselves: every entry is within 0.05 of its percentage
   * of the positive weights, and a single one, the first of those with the largest rounded percentage,
   * only within 0.05 for each other entry.
   */
  lemma {:induction false} RoundedPercentages(w: Table)
    requires Distinct(w.keys) && exists k :: k in w.keys && At(w.at, k) > 0.0
    ensures var keys, r := PositiveKeys(w.at, w.keys), RoundedTo100(ScaledTo100(w));
      var total := Sum(w.at, keys);
      var b := Biggest(Rounded(ScaledTo100(w)), keys);
      && (forall k :: k in keys && k != b ==> NearPercentage(At(r.at, k), At(w.at, k), total, 0.05))
      && NearPercentage(At(r.at, b), At(w.at, b), total, 0.05 * (|keys| - 1) as real)
  {
    RoundedErrors(w);
    ScaledPercentages(w);
    var keys, s := PositiveKeys(w.at, w.keys), ScaledTo100(w);
    ErrorsOfPercentages(s, RoundedTo100(s).at, w.at, Sum(w.at, keys), Biggest(Rounded(s), keys));
  }

  lemma {:induction false} RoundedErrors(w: Table)
    requires Distinct(w.keys) && exists k :: k in w.keys && At(w.at, k) > 0.0
    ensures var keys, s := PositiveKeys(w.at, w.keys), ScaledTo100(w);
      var b := Biggest(Rounded(s), keys);
      s.keys == keys && b in keys && ErrorsWithin(s, RoundedTo100(s).at, b)
  {
    RoundedScaledWeights(w);
    ScalingSumsTo100(w);
  }

  ghost predicate AllPercentages(s: Table, weight: Amounts, total: real) {
    forall k :: k in s.keys ==> IsPercentage(At(s.at, k), At(weight, k), total)
  }

  lemma {:induction false} ScaledPercentages(w: Table)
    requires Distinct(w.keys) && exists k :: k in w.keys && At(w.at, k) > 0.0
    ensures AllPercentages(ScaledTo100(w), w.at, Sum(w.at, PositiveKeys(w.at, w.keys)))
  {
    var s := ScaledTo100(w);
    forall k | k in s.keys ensures IsPercentage(At(s.at, k), At(w.at, k), Sum(w.at, PositiveKeys(w.at, w.keys))) {
      ScalingKeepsProportions(w, k);
    }
  }

  lemma {:induction false} ErrorsOfPercentages(s: Table, r: Amounts, weight: Amounts, total: real, b: string)
    requires AllPercentages(s, weight, total) && ErrorsWithin(s, r, b) && b in s.keys
    ensures forall k :: k in s.keys && k != b ==> NearPercentage(At(r, k), At(weight, k), total, 0.05)
    ensures NearPercentage(At(r, b), At(weight, b), total, 0.05 * (|s.keys| - 1) as real)
  {}

  predicate IsTenths(x: real, n: int) { x * 10.0 == n as real }

  /** A number with at most one decimal. */
  ghost predicate OneDecimal(x: real) {
    exists n: int :: IsTenths(x, n)
  }

  lemma {:induction false} TenthsAdd(x: real, y: real)
    requires OneDecimal(x) && OneDecimal(y)
    ensures OneDecimal(x + y) && OneDecimal(x - y)
  {
    var m: int :| IsTenths(x, m);
    var n: int :| IsTenths(y, n);
    assert IsTenths(x + y, m + n) && IsTenths(x - y, m - n);
  }

  lemma {:induction false} TenthsSum(m: Amounts, keys: seq<string>)
    requires forall k :: k in keys ==> OneDecimal(At(m, k))
    ensures OneDecimal(Sum(m, keys))
  {
    if keys == [] {
      assert IsTenths(0.0, 0);
    } else {
      TenthsSum(m, keys[..|keys| - 1]);
      TenthsAdd(Sum(m, keys[..|keys| - 1]), At(m, keys[|keys| - 1]));
    }
  }

  /** Every rounded weight has at most one decimal, the one that absorbs the rest of 100 included. */
  lemma {:induction false} RoundedToOneDecimal(w: Table, k: string)
    requires Percentages(w) && k in w.keys
    ensures OneDecimal(At(RoundedTo100(w).at, k))
  {
    forall j | j in w.keys ensures OneDecimal(At(Rounded(w), j)) { RoundedIsTenths(w, j); }
    PositiveKeysIdempotent(w.at, w.keys);
    AbsorbedIsTenths(w.keys, Rounded(w), k);
  }

  lemma {:induction false} AbsorbedIsTenths(keys: seq<string>, m: Amounts, k: string)
    requires Distinct(keys) && k in keys && forall j :: j in m <==> j in keys
    requires forall j :: j in keys ==> OneDecimal(At(m, j))
    ensures OneDecimal(At(Absorbed(keys, m), k))
  {
    AbsorbedSums(keys, m);
    RestIsTenths(m, keys, k);
  }

  lemma {:induction false} RoundedIsTenths(w: Table, k: string)
    requires Percentages(w) && k in w.keys
    ensures OneDecimal(At(Rounded(w), k))
  {
    RoundedValue(w, k);
    assert IsTenths(At(Rounded(w), k), Tenths(At(w.at, k)));
  }

  lemma {:induction false} RestIsTenths(m: Amounts, keys: seq<string>, k: string)
    requires k in keys && forall j :: j in keys ==> OneDecimal(At(m, j))
    ensures OneDecimal(At(m, k) + 100.0 - Sum(m, keys))
  {
    TenthsSum(m, keys);
    assert IsTenths(100.0, 1000);
    TenthsAdd(At(m, k), 100.0);
    TenthsAdd(At(m, k) + 100.0, Sum(m, keys));
  }

  /** Of the entries no other exceeds, the biggest is the first. */
  lemma {:induction false} BiggestIsFirst(m: Amounts, keys: seq<string>, i: nat)
    requires i < |keys| && keys[i] == Biggest(m, keys) && keys[i] !in keys[..i]
    ensures forall j :: 0 <= j < i ==> At(m, keys[j]) < At(m, keys[i])
  {
    if |keys| > 1 && i < |keys| - 1 {
      var front := keys[..|keys| - 1];
      assert front[..i] == keys[..i];
      assert keys[i] == front[i] && front[i] in front;
      BiggestIsFirst(m, front, i);
    } else if |keys| > 1 {
      var front := keys[..i];
      forall j | 0 <= j < i ensures At(m, keys[j]) < At(m, keys[i]) { assert front[j] in front; }
    }
  }

  // ---------------------------------------------------------------- 47 entries and more

  function Key(i: nat): string { seq(i, _ => 'x') }

  function KeysUpTo(n: nat): (r: seq<string>)
    ensures |r| == n && (forall i :: 0 <= i < n ==> r[i] == Key(i) && |r[i]| == i) && Distinct(r)
  {
    seq(n, (i: nat) => Key(i))
  }

  /** The `i`th of `n` weights, nearly all of which round up by almost a half. */
  function StubbornWeight(n: nat, i: nat): real
    requires n >= 47
  {
    if i == 0 && n == 47 then 2.154
    else if i < 36 then 2.151
    else if i < 47 then 2.051
    else if n > 47 then 0.003 / (n - 47) as real
    else 0.0
  }

  function StubbornWeights(n: nat): Table
    requires n >= 47
  {
    Table(KeysUpTo(n), map k | k in KeysUpTo(n) :: StubbornWeight(n, |k|))
  }

  /** A stretch of keys on which the map is constant. */
  lemma {:induction false} SumRun(m: Amounts, keys: seq<string>, lo: nat, hi: nat, c: real)
    requires lo <= hi <= |keys| && forall i :: lo <= i < hi ==> At(m, keys[i]) == c
    ensures Sum(m, keys[..hi]) == Sum(m, keys[..lo]) + c * (hi - lo) as real
  {
    if lo < hi {
      SumRun(m, keys, lo, hi - 1, c);
      SumSnoc(m, keys, hi - 1);
      Grow(c, hi - 1 - lo);
    }
  }

  lemma Grow(c: real, n: int)
    ensures c * (n + 1) as real == c * n as real + c
  {}

  /** A sum over keys on which the map takes three values in turn. */
  lemma SumThree(m: Amounts, keys: seq<string>, c0: real, c1: real, c2: real)
    requires |keys| >= 47
    requires forall i :: 0 <= i < |keys| ==> At(m, keys[i]) == if i < 36 then c0 else if i < 47 then c1 else c2
    ensures Sum(m, keys) == c0 * 36.0 + c1 * 11.0 + c2 * (|keys| - 47) as real
  {
    SumRun(m, keys, 0, 36, c0);
    SumRun(m, keys, 36, 47, c1);
    SumRun(m, keys, 47, |keys|, c2);
    assert keys[..|keys|] == keys;
  }

  lemma StubbornTail(n: nat)
    requires n > 47
    ensures 0.0 < 0.003 / (n - 47) as real <= 0.003
    ensures (0.003 / (n - 47) as real) * (n - 47) as real == 0.003
  {}

  lemma StubbornSumAbove(m: Amounts, keys: seq<string>, tail: real)
    requires |keys| > 47 && tail * (|keys| - 47) as real == 0.003
    requires forall i :: 0 <= i < |keys| ==>
      At(m, keys[i]) == if i < 36 then 2.151 else if i < 47 then 2.051 else tail
    ensures Sum(m, keys) == 100.0
  {
    SumThree(m, keys, 2.151, 2.051, tail);
  }

  lemma StubbornSum47(m: Amounts, keys: seq<string>)
    requires Distinct(keys) && |keys| == 47
    requires forall i :: 0 <= i < 47 ==>
      At(m, keys[i]) == if i == 0 then 2.154 else if i < 36 then 2.151 else 2.051
    ensures Sum(m, keys) == 100.0
  {
    SumUpdate(m, keys, keys[0], 2.151);
    SumThree(m[keys[0] := 2.151], keys, 2.151, 2.051, 0.0);
  }

  lemma StubbornSum(n: nat)
    requires n >= 47
    ensures Sum(StubbornWeights(n).at, KeysUpTo(n)) == 100.0
  {
    var m, keys := StubbornWeights(n).at, KeysUpTo(n);
    assert forall i :: 0 <= i < n ==> At(m, keys[i]) == StubbornWeight(n, i);
    if n > 47 {
      StubbornTail(n);
      StubbornSumAbove(m, keys, 0.003 / (n - 47) as real);
    } else {
      StubbornSum47(m, keys);
    }
  }

  lemma StubbornAre100(n: nat)
    requires n >= 47
    ensures Percentages(StubbornWeights(n))
  {
    StubbornSum(n);
    if n > 47 { StubbornTail(n); }
    assert KeysUpTo(n)[0] in KeysUpTo(n);
  }

  lemma StubbornRounds(n: nat, i: nat)
    requires n >= 47 && i < n
    ensures ToDecimalPlaces(StubbornWeight(n, i), 1) == if i < 36 then 2.2 else if i < 47 then 2.1 else 0.0
  {
    RoundingToTenths(StubbornWeight(n, i));
    if i >= 47 { StubbornTail(n); }
  }

  /** From 47 entries on there are weights that end up with a negative percentage: 46 is the exact limit. */
  lemma NegativeFrom47(n: nat)
    requires n >= 47
    ensures var w := StubbornWeights(n);
      Percentages(w) && |w.keys| == n && exists k :: k in w.keys && At(RoundedTo100(w).at, k) < 0.0
  {
    var w := StubbornWeights(n);
    StubbornAre100(n);
    PositiveKeysIdempotent(w.at, w.keys);
    var rounded := Rounded(w);
    forall i | 0 <= i < n
      ensures At(rounded, w.keys[i]) == if i < 36 then 2.2 else if i < 47 then 2.1 else 0.0
    {
      StubbornRounds(n, i);
    }
    RoundingSumsTo100(w);
    Overdrawn(w.keys, rounded, Biggest(rounded, w.keys));
  }

  /** What the biggest entry is left with when the others round up to more than 100. */
  lemma Overdrawn(keys: seq<string>, rounded: Amounts, b: string)
    requires |keys| >= 47 && b in keys && forall k :: k in keys ==> At(rounded, k) <= At(rounded, b)
    requires forall i :: 0 <= i < |keys| ==>
      At(rounded, keys[i]) == if i < 36 then 2.2 else if i < 47 then 2.1 else 0.0
    ensures At(rounded, b) + 100.0 - Sum(rounded, keys) < 0.0
  {
    SumThree(rounded, keys, 2.2, 2.1, 0.0);
    var i :| 0 <= i < |keys| && keys[i] == b;
  }
}

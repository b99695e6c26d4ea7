/**
 * Turning target weights per category into weights per fund (`expandCategoryWeights` in
 * web/src/allocation.ts).
 */
module CategoryWeights {
  import opened Prelude
  import opened Sums
  import opened Allocation
  import opened AllocationProofs
  import opened AllocationShares

  /** The members chosen in each category, what each fund is worth, and whether to split by that worth. */
  datatype Choice = Choice(selected: map<string, seq<string>>, current: Amounts, byValue: bool)

  const EMPTY: Table := Table([], map[])

  /** `map.set(key, value)`: a new key goes last. */
  function Put(t: Table, s: string, x: real): Table {
    Table(if s in t.at then t.keys else t.keys + [s], t.at[s := x])
  }

  function MembersOf(c: Choice, category: string): seq<string> {
    if category in c.selected then c.selected[category] else []
  }

  function MemberShare(c: Choice, members: seq<string>, s: string): real
    requires |members| > 0
  {
    if c.byValue then Share(c.current, members, s) else 1.0 / |members| as real
  }

  function Shares(c: Choice, members: seq<string>): Amounts
    requires |members| > 0
  {
    map s | s in members :: MemberShare(c, members, s)
  }

  method OneShare(c: Choice, members: seq<string>, total: real, m: string) returns (share: real)
    requires m in members && (c.byValue ==> total == Sum(c.current, members))
    ensures share == Shares(c, members)[m]
  {
    var value := if m in c.current then c.current[m] else 0.0;
    if c.byValue && total > 0.0 { return value / total; }
    share := 1.0 / |members| as real;
  }

  /** The table holds the shares of the given members, in order. */
  ghost predicate Collected(t: Table, spec: Amounts, seen: seq<string>) {
    && t.keys == Unique(seen) && (forall s :: s in t.at <==> s in t.keys)
    && forall s :: s in t.at ==> s in spec && t.at[s] == spec[s]
  }

  lemma CollectedPut(t: Table, spec: Amounts, keys: seq<string>, s: string)
    requires t.keys == keys && (forall k :: k in t.at <==> k in keys) && s in spec
    requires forall k :: k in t.at ==> k in spec && t.at[k] == spec[k]
    ensures var t' := Put(t, s, spec[s]);
      && t'.keys == (if s in keys then keys else keys + [s]) && (forall k :: k in t'.at <==> k in t'.keys)
      && forall k :: k in t'.at ==> k in spec && t'.at[k] == spec[k]
  {}

  lemma CollectedSnoc(t: Table, spec: Amounts, seen: seq<string>, s: string)
    requires Collected(t, spec, seen) && s in spec
    ensures Collected(Put(t, s, spec[s]), spec, seen + [s])
  {
    UniqueAppend(seen, s);
    CollectedPut(t, spec, Unique(seen), s);
  }

  lemma AllCollected(t: Table, spec: Amounts, seen: seq<string>)
    requires Collected(t, spec, seen) && forall s :: s in spec ==> s in seen
    ensures t.at == spec
  {}

  method CategoryMemberShares(c: Choice, members: seq<string>) returns (shares: Table)
    requires |members| > 0
    ensures shares.keys == Unique(members) && shares.at == Shares(c, members)
  {
    var total := 0.0;
    if c.byValue { total := Allocation.Total(c.current, members); }
    shares := EMPTY;
    ghost var spec := Shares(c, members);
    for i := 0 to |members|
      invariant Collected(shares, spec, members[..i])
    {
      var share := OneShare(c, members, total, members[i]);
      assert members[..i + 1] == members[..i] + [members[i]];
      CollectedSnoc(shares, spec, members[..i], members[i]);
      shares := Put(shares, members[i], share);
    }
    assert members[..|members|] == members;
    AllCollected(shares, spec, members);
  }

  /** The table after adding the first `n` shares of a category's weight to it. */
  function WithShares(out: Table, weight: real, keys: seq<string>, shares: Amounts, n: nat): Table
    requires n <= |keys|
  {
    if n == 0 then out
    else
      var t := WithShares(out, weight, keys, shares, n - 1);
      Put(t, keys[n - 1], At(t.at, keys[n - 1]) + Times(weight, At(shares, keys[n - 1])))
  }

  /** The weights after the first `n` categories, or the first category whose slice would vanish. */
  function Expanded(cats: Table, c: Choice, n: nat): Result<Table, string>
    requires n <= |cats.keys|
  {
    if n == 0 then Ok(EMPTY)
    else
      var before, category := Expanded(cats, c, n - 1), cats.keys[n - 1];
      if before.Err? || At(cats.at, category) <= 0.0 then before
      else if MembersOf(c, category) == [] then Err(category)
      else Ok(WithCategory(before.value, At(cats.at, category), c, MembersOf(c, category)))
  }

  function WithCategory(out: Table, weight: real, c: Choice, members: seq<string>): Table
    requires members != []
  {
    WithShares(out, weight, Unique(members), Shares(c, members), |Unique(members)|)
  }

  method AddShares(before: Table, weight: real, shares: Table) returns (out: Table)
    ensures out == WithShares(before, weight, shares.keys, shares.at, |shares.keys|)
  {
    out := before;
    for j := 0 to |shares.keys|
      invariant out == WithShares(before, weight, shares.keys, shares.at, j)
    {
      var s := shares.keys[j];
      out := Put(out, s, At(out.at, s) + Times(weight, At(shares.at, s)));
    }
  }

  method ExpandCategoryWeights(cats: Table, c: Choice) returns (r: Result<Table, string>)
    ensures r == Expanded(cats, c, |cats.keys|)
  {
    var out := EMPTY;
    for i := 0 to |cats.keys|
      invariant Expanded(cats, c, i) == Ok(out)
    {
      var category := cats.keys[i];
      var weight := At(cats.at, category);
      if weight > 0.0 {
        var members := MembersOf(c, category);
        if |members| == 0 {
          ErrorStays(cats, c, i + 1, |cats.keys|);
          return Err(category);
        }
        var shares := CategoryMemberShares(c, members);
        out := AddShares(out, weight, shares);
      }
    }
    r := Ok(out);
  }

  lemma {:induction false} ErrorStays(cats: Table, c: Choice, m: nat, n: nat)
    requires m <= n <= |cats.keys| && Expanded(cats, c, m).Err?
    ensures Expanded(cats, c, n) == Expanded(cats, c, m)
  {
    if m < n { ErrorStays(cats, c, m, n - 1); }
  }

  // ---------------------------------------------------------------- when it throws

  predicate Weighted(cats: Table, category: string) {
    category in cats.keys && At(cats.at, category) > 0.0
  }

  lemma {:induction false} FailsAt(cats: Table, c: Choice, n: nat)
    requires n <= |cats.keys|
    ensures Expanded(cats, c, n).Ok?
            <==> forall i :: 0 <= i < n && At(cats.at, cats.keys[i]) > 0.0 ==> MembersOf(c, cats.keys[i]) != []
  {
    if n > 0 { FailsAt(cats, c, n - 1); }
  }

  /** Expansion fails exactly when some category with a positive weight has no selected fund. */
  lemma FailsOnlyForEmptyCategories(cats: Table, c: Choice)
    ensures Expanded(cats, c, |cats.keys|).Ok?
            <==> forall category :: Weighted(cats, category) ==> MembersOf(c, category) != []
  {
    FailsAt(cats, c, |cats.keys|);
    forall i | 0 <= i < |cats.keys| && At(cats.at, cats.keys[i]) > 0.0 ensures Weighted(cats, cats.keys[i]) {}
  }

  // ---------------------------------------------------------------- conservation

  /** No key of `members`, or all of them, are among `keys`. */
  predicate AllOrNone(members: seq<string>, keys: seq<string>) {
    (forall s :: s in members ==> s in keys) || (forall s :: s in members ==> s !in keys)
  }

  ghost predicate Within(members: seq<string>, keys: seq<string>) {
    forall s :: s in members ==> s in keys
  }

  /** Adding shares to a table raises its sum over `keys` by those of them that lie in `keys`. */
  lemma {:induction false} SharesInside(out: Table, w: real, own: seq<string>, shares: Amounts, n: nat,
                                        keys: seq<string>, scaled: Amounts)
    requires n <= |own| && Distinct(keys) && Within(own, keys)
    requires forall s :: s in own ==> At(scaled, s) == Times(w, At(shares, s))
    ensures Sum(WithShares(out, w, own, shares, n).at, keys) == Sum(out.at, keys) + Sum(scaled, own[..n])
  {
    if n > 0 {
      var t := WithShares(out, w, own, shares, n - 1);
      SharesInside(out, w, own, shares, n - 1, keys, scaled);
      SumUpdate(t.at, keys, own[n - 1], At(t.at, own[n - 1]) + Times(w, At(shares, own[n - 1])));
      SumSnoc(scaled, own, n - 1);
    }
  }

  lemma {:induction false} SharesOutside(out: Table, w: real, own: seq<string>, shares: Amounts, n: nat,
                                         keys: seq<string>)
    requires n <= |own| && Distinct(keys) && forall s :: s in own ==> s !in keys
    ensures Sum(WithShares(out, w, own, shares, n).at, keys) == Sum(out.at, keys)
  {
    if n > 0 {
      var t := WithShares(out, w, own, shares, n - 1);
      SharesOutside(out, w, own, shares, n - 1, keys);
      SumUpdate(t.at, keys, own[n - 1], At(t.at, own[n - 1]) + Times(w, At(shares, own[n - 1])));
    }
  }

  /** The part of a category's weight that the shares of its funds hand out. */
  function HandedOut(c: Choice, members: seq<string>): real {
    if members == [] then 0.0 else Sum(Shares(c, members), Unique(members))
  }

  lemma CategorySum(out: Table, w: real, c: Choice, members: seq<string>, keys: seq<string>)
    requires members != [] && Distinct(keys) && AllOrNone(members, keys)
    ensures Sum(WithCategory(out, w, c, members).at, keys)
            == Sum(out.at, keys) + if Within(members, keys) then Times(w, HandedOut(c, members)) else 0.0
  {
    var own := Unique(members);
    if Within(members, keys) {
      SlicesSum(out, w, own, Shares(c, members), keys);
    } else {
      SharesOutside(out, w, own, Shares(c, members), |own|, keys);
    }
  }

  lemma SlicesSum(out: Table, w: real, own: seq<string>, shares: Amounts, keys: seq<string>)
    requires Distinct(keys) && Within(own, keys)
    ensures Sum(WithShares(out, w, own, shares, |own|).at, keys) == Sum(out.at, keys) + Times(w, Sum(shares, own))
  {
    var scaled: Amounts := map s | s in own :: Times(w, At(shares, s));
    SharesInside(out, w, own, shares, |own|, keys, scaled);
    SumScaled(scaled, shares, w, own);
    WholeSlice(own);
  }

  /** What the positive weights among the first `n` hand out to funds in `keys`. */
  ghost function Caught(cats: Table, c: Choice, keys: seq<string>, n: nat): real
    requires n <= |cats.keys|
  {
    if n == 0 then 0.0
    else
      var category := cats.keys[n - 1];
      Caught(cats, c, keys, n - 1)
      + if At(cats.at, category) > 0.0 && Within(MembersOf(c, category), keys)
        then Times(At(cats.at, category), HandedOut(c, MembersOf(c, category))) else 0.0
  }

  /** Every weighted category has all or none of its funds among `keys`. */
  ghost predicate Splits(cats: Table, c: Choice, keys: seq<string>) {
    forall category :: Weighted(cats, category) ==> AllOrNone(MembersOf(c, category), keys)
  }

  lemma {:induction false} ExpandedSum(cats: Table, c: Choice, keys: seq<string>, n: nat)
    requires n <= |cats.keys| && Distinct(keys) && Splits(cats, c, keys) && Expanded(cats, c, n).Ok?
    ensures Sum(Expanded(cats, c, n).value.at, keys) == Caught(cats, c, keys, n)
  {
    if n == 0 {
      SumZero(map[], keys);
    } else {
      var category := cats.keys[n - 1];
      ExpandedSum(cats, c, keys, n - 1);
      if At(cats.at, category) > 0.0 {
        assert Weighted(cats, category);
        CategorySum(Expanded(cats, c, n - 1).value, At(cats.at, category), c, MembersOf(c, category), keys);
      }
    }
  }

  /** The sum of the positive category weights. */
  function PositiveWeight(cats: Table, n: nat): real
    requires n <= |cats.keys|
  {
    if n == 0 then 0.0
    else PositiveWeight(cats, n - 1) + Max(0.0, At(cats.at, cats.keys[n - 1]))
  }

  /** What is left of an amount when a part of it is handed out. */
  function Rest(w: real, part: real): real { w - Times(w, part) }

  /** What a category does not hand out of its weight, if that is positive. */
  function LostBy(cats: Table, c: Choice, category: string): real {
    if At(cats.at, category) > 0.0 then Rest(At(cats.at, category), HandedOut(c, MembersOf(c, category))) else 0.0
  }

  /** What the positive weights among the first `n` do not hand out. */
  function Lost(cats: Table, c: Choice, n: nat): real
    requires n <= |cats.keys|
  {
    if n == 0 then 0.0
    else Lost(cats, c, n - 1) + LostBy(cats, c, cats.keys[n - 1])
  }

  /** What a weighted category hands out and what it loses are its weight; any other loses nothing. */
  lemma {:induction false} CaughtAndLostBy(cats: Table, c: Choice, category: string) returns (caught: real)
    ensures caught + LostBy(cats, c, category) == Max(0.0, At(cats.at, category))
    ensures caught == if At(cats.at, category) > 0.0
                      then Times(At(cats.at, category), HandedOut(c, MembersOf(c, category))) else 0.0
  {
    caught := Max(0.0, At(cats.at, category)) - LostBy(cats, c, category);
  }

  lemma {:induction false} CaughtAndLost(cats: Table, c: Choice, keys: seq<string>, n: nat)
    requires n <= |cats.keys|
    requires forall category :: Weighted(cats, category) ==> Within(MembersOf(c, category), keys)
    ensures Caught(cats, c, keys, n) + Lost(cats, c, n) == PositiveWeight(cats, n)
  {
    if n > 0 {
      var category := cats.keys[n - 1];
      CaughtAndLost(cats, c, keys, n - 1);
      assert At(cats.at, category) > 0.0 ==> Weighted(cats, category);
      var caught := CaughtAndLostBy(cats, c, category);
    }
  }

  /**
   * Over any funds that include all chosen ones, the fund weights add up to the positive category
   * weights less what their shares do not hand out: no weight is lost if and only if that is nothing.
   */
  lemma ExpansionExactly(cats: Table, c: Choice, keys: seq<string>)
    requires Distinct(keys) && Expanded(cats, c, |cats.keys|).Ok?
    requires forall category :: Weighted(cats, category) ==> Within(MembersOf(c, category), keys)
    ensures var total := Sum(Expanded(cats, c, |cats.keys|).value.at, keys);
      && total == PositiveWeight(cats, |cats.keys|) - Lost(cats, c, |cats.keys|)
      && (total == PositiveWeight(cats, |cats.keys|) <==> Lost(cats, c, |cats.keys|) == 0.0)
  {
    ExpandedSum(cats, c, keys, |cats.keys|);
    CaughtAndLost(cats, c, keys, |cats.keys|);
  }

  // ---------------------------------------------------------------- when a category hands out its weight

  /** What the shares are proportional to: the funds' values, or one each when split evenly. */
  function Worth(c: Choice, members: seq<string>): Amounts {
    if c.byValue && Sum(c.current, members) > 0.0 then c.current else map s | s in members :: 1.0
  }

  /** The worth of the repeated entries. */
  function RepeatedWorth(m: Amounts, members: seq<string>): real {
    if members == [] then 0.0
    else
      var front, last := members[..|members| - 1], members[|members| - 1];
      RepeatedWorth(m, front) + if last in front then At(m, last) else 0.0
  }

  lemma {:induction false} UniqueWorth(m: Amounts, members: seq<string>)
    ensures Sum(m, members) == Sum(m, Unique(members)) + RepeatedWorth(m, members)
  {
    if members != [] {
      var front, last := members[..|members| - 1], members[|members| - 1];
      UniqueWorth(m, front);
      assert members == front + [last];
      UniqueSum(m, front, last);
    }
  }

  lemma {:induction false} UniqueSum(m: Amounts, front: seq<string>, last: string)
    ensures Sum(m, Unique(front + [last])) == Sum(m, Unique(front)) + if last in front then 0.0 else At(m, last)
  {
    UniqueAppend(front, last);
    if last !in front { assert (Unique(front) + [last])[..|Unique(front)|] == Unique(front); }
  }

  lemma ShareOfWorth(c: Choice, members: seq<string>)
    requires members != []
    ensures Sum(Worth(c, members), members) > 0.0
    ensures HandedOut(c, members) == Sum(Worth(c, members), Unique(members)) / Sum(Worth(c, members), members)
  {
    var worth := Worth(c, members);
    if !(c.byValue && Sum(c.current, members) > 0.0) { SumConstant(worth, 1.0, members); }
    ScaledWorth(Shares(c, members), worth, Unique(members), Sum(worth, members));
  }

  lemma {:induction false} ScaledWorth(shares: Amounts, worth: Amounts, own: seq<string>, total: real)
    requires total > 0.0 && forall s :: s in own ==> At(shares, s) == At(worth, s) / total
    ensures Sum(shares, own) == Sum(worth, own) / total
  {
    if own != [] {
      ScaledWorth(shares, worth, own[..|own| - 1], total);
      AddQuotients(Sum(worth, own[..|own| - 1]), At(worth, own[|own| - 1]), total);
    }
  }

  lemma AddQuotients(a: real, b: real, c: real)
    requires c > 0.0
    ensures (a + b) / c == a / c + b / c
  {}

  lemma RatioToOne(part: real, whole: real)
    requires whole > 0.0 && part <= whole
    ensures part / whole <= 1.0 && (part / whole == 1.0 <==> part == whole)
  {}

  /** Every repeated entry is worth nothing: for an even split, no fund is listed twice. */
  ghost predicate RepeatsWorthless(c: Choice, members: seq<string>) {
    NoWorthIn(Worth(c, members), members)
  }

  ghost predicate NoWorthIn(m: Amounts, members: seq<string>) {
    forall i :: 0 <= i < |members| && members[i] in members[..i] ==> At(m, members[i]) == 0.0
  }

  lemma {:induction false} RepeatedNothing(m: Amounts, members: seq<string>)
    requires forall s :: s in members ==> At(m, s) >= 0.0
    ensures RepeatedWorth(m, members) >= 0.0
    ensures RepeatedWorth(m, members) == 0.0 <==> NoWorthIn(m, members)
  {
    if members != [] {
      var front := members[..|members| - 1];
      RepeatedNothing(m, front);
      NoWorthInSnoc(m, members);
    }
  }

  lemma NoWorthInSnoc(m: Amounts, members: seq<string>)
    requires members != []
    ensures var front, last := members[..|members| - 1], members[|members| - 1];
      NoWorthIn(m, members) <==> NoWorthIn(m, front) && (last in front ==> At(m, last) == 0.0)
  {
    var front := members[..|members| - 1];
    forall i | 0 <= i < |front| ensures front[..i] == members[..i] && front[i] == members[i] {}
  }

  /** A category hands out at most its weight, and all of it exactly when its repeats are worthless. */
  lemma HandsOutAll(c: Choice, members: seq<string>)
    requires members != [] && forall s :: s in members ==> At(c.current, s) >= 0.0
    ensures HandedOut(c, members) <= 1.0
    ensures HandedOut(c, members) == 1.0 <==> RepeatsWorthless(c, members)
  {
    var worth := Worth(c, members);
    ShareOfWorth(c, members);
    UniqueWorth(worth, members);
    RepeatedNothing(worth, members);
    RatioToOne(Sum(worth, Unique(members)), Sum(worth, members));
  }

  lemma DistinctHandsOutAll(c: Choice, members: seq<string>)
    requires members != [] && Distinct(members)
    ensures HandedOut(c, members) == 1.0
  {
    UniqueOfDistinct(members);
    ShareOfWorth(c, members);
    RatioToOne(Sum(Worth(c, members), members), Sum(Worth(c, members), members));
  }

  lemma {:induction false} LostNothing(cats: Table, c: Choice, n: nat)
    requires n <= |cats.keys|
    requires forall category :: Weighted(cats, category) ==> HandedOut(c, MembersOf(c, category)) <= 1.0
    ensures Lost(cats, c, n) >= 0.0
    ensures Lost(cats, c, n) == 0.0 <==> forall i :: 0 <= i < n ==> HandsOutItsWeight(cats, c, cats.keys[i])
  {
    if n > 0 {
      LostNothing(cats, c, n - 1);
      assert At(cats.at, cats.keys[n - 1]) > 0.0 ==> Weighted(cats, cats.keys[n - 1]);
      LostByNothing(cats, c, cats.keys[n - 1]);
    }
  }

  predicate HandsOutItsWeight(cats: Table, c: Choice, category: string) {
    Weighted(cats, category) ==> HandedOut(c, MembersOf(c, category)) == 1.0
  }

  /** A category loses nothing exactly if it carries no weight or hands out all. */
  lemma {:induction false} LostByNothing(cats: Table, c: Choice, category: string)
    requires category in cats.keys
    requires Weighted(cats, category) ==> HandedOut(c, MembersOf(c, category)) <= 1.0
    ensures LostBy(cats, c, category) >= 0.0
    ensures LostBy(cats, c, category) == 0.0 <==> HandsOutItsWeight(cats, c, category)
  {
    if At(cats.at, category) > 0.0 { RestOf(At(cats.at, category), HandedOut(c, MembersOf(c, category))); }
  }

  lemma RestOf(w: real, part: real)
    requires w > 0.0 && part <= 1.0
    ensures Rest(w, part) >= 0.0 && (Rest(w, part) == 0.0 <==> part == 1.0)
  {
    assert Rest(w, part) == w * (1.0 - part);
  }

  /** No weight is lost by categories that list each of their funds once. */
  lemma ExpansionConserves(cats: Table, c: Choice, keys: seq<string>)
    requires Distinct(keys) && Expanded(cats, c, |cats.keys|).Ok?
    requires forall category :: Weighted(cats, category) ==>
               Distinct(MembersOf(c, category)) && Within(MembersOf(c, category), keys)
    ensures Sum(Expanded(cats, c, |cats.keys|).value.at, keys) == PositiveWeight(cats, |cats.keys|)
  {
    FailsOnlyForEmptyCategories(cats, c);
    forall category | Weighted(cats, category) ensures HandedOut(c, MembersOf(c, category)) == 1.0 {
      DistinctHandsOutAll(c, MembersOf(c, category));
    }
    LostNothing(cats, c, |cats.keys|);
    ExpansionExactly(cats, c, keys);
  }

  /**
   * With holdings that are worth something or nothing, the fund weights never exceed the category
   * weights, and fall short of them exactly if some weighted category repeats a fund that counts: any
   * repeated fund when it is split evenly, one that is worth something when it is split by value.
   */
  lemma RepeatsLoseWeight(cats: Table, c: Choice, keys: seq<string>)
    requires Distinct(keys) && Expanded(cats, c, |cats.keys|).Ok?
    requires forall category :: Weighted(cats, category) ==> Within(MembersOf(c, category), keys)
    requires forall s :: s in keys ==> At(c.current, s) >= 0.0
    ensures var total := Sum(Expanded(cats, c, |cats.keys|).value.at, keys);
      && total <= PositiveWeight(cats, |cats.keys|)
      && (total == PositiveWeight(cats, |cats.keys|)
          <==> forall category :: Weighted(cats, category) ==> RepeatsWorthless(c, MembersOf(c, category)))
  {
    FailsOnlyForEmptyCategories(cats, c);
    forall category | Weighted(cats, category)
      ensures HandedOut(c, MembersOf(c, category)) <= 1.0
      ensures HandedOut(c, MembersOf(c, category)) == 1.0 <==> RepeatsWorthless(c, MembersOf(c, category))
    {
      HandsOutAll(c, MembersOf(c, category));
    }
    LostNothing(cats, c, |cats.keys|);
    ExpansionExactly(cats, c, keys);
  }

  // ---------------------------------------------------------------- each category by itself

  /** No fund is chosen in two weighted categories. */
  ghost predicate Disjoint(cats: Table, c: Choice) {
    forall p, q, s :: Weighted(cats, p) && Weighted(cats, q) && p != q && s in MembersOf(c, p) ==> s !in MembersOf(c, q)
  }

  lemma {:induction false} OutsideOthers(cats: Table, c: Choice, category: string, k: string)
    requires Disjoint(cats, c) && Weighted(cats, category) && Weighted(cats, k) && k != category
    requires MembersOf(c, k) != []
    ensures !Within(MembersOf(c, k), Unique(MembersOf(c, category)))
  {
    assert MembersOf(c, k)[0] in MembersOf(c, k);
  }

  /** Categories whose funds are not all among `keys` hand out nothing there. */
  lemma {:induction false} CaughtNothing(cats: Table, c: Choice, keys: seq<string>, m: nat, n: nat)
    requires m <= n <= |cats.keys|
    requires forall i :: m <= i < n && Weighted(cats, cats.keys[i]) ==> !Within(MembersOf(c, cats.keys[i]), keys)
    ensures Caught(cats, c, keys, n) == Caught(cats, c, keys, m)
  {
    if n > m {
      CaughtNothing(cats, c, keys, m, n - 1);
      assert At(cats.at, cats.keys[n - 1]) > 0.0 ==> Weighted(cats, cats.keys[n - 1]);
    }
  }

  lemma {:induction false} OnlyOneCaught(cats: Table, c: Choice, category: string, keys: seq<string>)
    requires Distinct(cats.keys) && Disjoint(cats, c) && Weighted(cats, category)
    requires keys == Unique(MembersOf(c, category)) && forall k :: Weighted(cats, k) ==> MembersOf(c, k) != []
    ensures Caught(cats, c, keys, |cats.keys|) == Times(At(cats.at, category), HandedOut(c, MembersOf(c, category)))
  {
    var i :| 0 <= i < |cats.keys| && cats.keys[i] == category;
    forall j | 0 <= j < |cats.keys| && j != i && Weighted(cats, cats.keys[j])
      ensures !Within(MembersOf(c, cats.keys[j]), keys)
    {
      OutsideOthers(cats, c, category, cats.keys[j]);
    }
    CaughtNothing(cats, c, keys, i + 1, |cats.keys|);
    CaughtNothing(cats, c, keys, 0, i);
  }

  /** The funds of a category together carry exactly what it hands out of its weight, whatever the others do. */
  lemma CategoriesKeepTheirSlices(cats: Table, c: Choice, category: string)
    requires Distinct(cats.keys) && Disjoint(cats, c) && Weighted(cats, category)
    requires Expanded(cats, c, |cats.keys|).Ok?
    ensures Sum(Expanded(cats, c, |cats.keys|).value.at, Unique(MembersOf(c, category)))
            == Times(At(cats.at, category), HandedOut(c, MembersOf(c, category)))
  {
    FailsOnlyForEmptyCategories(cats, c);
    var keys := Unique(MembersOf(c, category));
    forall k | Weighted(cats, k) ensures AllOrNone(MembersOf(c, k), keys) {}
    ExpandedSum(cats, c, keys, |cats.keys|);
    OnlyOneCaught(cats, c, category, keys);
  }

  /** So the distinct funds of a category carry exactly its weight, whatever the split. */
  lemma CategoriesKeepTheirWeight(cats: Table, c: Choice, category: string)
    requires Distinct(cats.keys) && Disjoint(cats, c) && Weighted(cats, category)
    requires Distinct(MembersOf(c, category)) && Expanded(cats, c, |cats.keys|).Ok?
    ensures Sum(Expanded(cats, c, |cats.keys|).value.at, MembersOf(c, category)) == At(cats.at, category)
  {
    FailsOnlyForEmptyCategories(cats, c);
    CategoriesKeepTheirSlices(cats, c, category);
    UniqueOfDistinct(MembersOf(c, category));
    DistinctHandsOutAll(c, MembersOf(c, category));
  }

  // ---------------------------------------------------------------- each fund within its category

  lemma {:induction false} ShareReceived(out: Table, w: real, own: seq<string>, shares: Amounts, n: nat, s: string)
    requires n <= |own| && Distinct(own)
    ensures At(WithShares(out, w, own, shares, n).at, s)
            == At(out.at, s) + if s in own[..n] then Times(w, At(shares, s)) else 0.0
  {
    if n > 0 {
      ShareReceived(out, w, own, shares, n - 1, s);
      DistinctPrefix(own, n - 1);
      assert own[..n] == own[..n - 1] + [own[n - 1]];
    }
  }

  /** The fund is chosen in no other weighted category. */
  ghost predicate OnlyIn(cats: Table, c: Choice, category: string, s: string) {
    forall k :: Weighted(cats, k) && k != category ==> s !in MembersOf(c, k)
  }

  /** Categories that do not choose a fund leave what it has. */
  lemma {:induction false} FundUntouched(cats: Table, c: Choice, s: string, m: nat, n: nat)
    requires m <= n <= |cats.keys| && Expanded(cats, c, n).Ok?
    requires forall i :: m <= i < n && Weighted(cats, cats.keys[i]) ==> s !in MembersOf(c, cats.keys[i])
    ensures Expanded(cats, c, m).Ok? && At(Expanded(cats, c, n).value.at, s) == At(Expanded(cats, c, m).value.at, s)
  {
    if n > m {
      FundUntouched(cats, c, s, m, n - 1);
      var k := cats.keys[n - 1];
      if At(cats.at, k) > 0.0 {
        CategoryGives(Expanded(cats, c, n - 1).value, At(cats.at, k), c, MembersOf(c, k), s);
      }
    }
  }

  /** A fund chosen in one weighted category only gets that category's weight times its share. */
  lemma {:induction false} FundWeight(cats: Table, c: Choice, category: string, s: string)
    requires Distinct(cats.keys) && Weighted(cats, category) && Expanded(cats, c, |cats.keys|).Ok?
    requires s in MembersOf(c, category) && OnlyIn(cats, c, category, s)
    ensures At(Expanded(cats, c, |cats.keys|).value.at, s)
            == Times(At(cats.at, category), MemberShare(c, MembersOf(c, category), s))
  {
    var i :| 0 <= i < |cats.keys| && cats.keys[i] == category;
    FundUntouched(cats, c, s, i + 1, |cats.keys|);
    FundUntouched(cats, c, s, 0, i);
    var given := FundReceives(cats, c, s, i);
  }

  lemma {:induction false} FundReceives(cats: Table, c: Choice, s: string, i: nat) returns (given: real)
    requires i < |cats.keys| && Expanded(cats, c, i + 1).Ok? && Weighted(cats, cats.keys[i])
    requires s in MembersOf(c, cats.keys[i])
    ensures Expanded(cats, c, i).Ok?
    ensures At(Expanded(cats, c, i + 1).value.at, s) == At(Expanded(cats, c, i).value.at, s) + given
    ensures given == Times(At(cats.at, cats.keys[i]), MemberShare(c, MembersOf(c, cats.keys[i]), s))
  {
    var k := cats.keys[i];
    CategoryGives(Expanded(cats, c, i).value, At(cats.at, k), c, MembersOf(c, k), s);
    given := Times(At(cats.at, k), MemberShare(c, MembersOf(c, k), s));
  }

  lemma {:induction false} CategoryGives(out: Table, w: real, c: Choice, members: seq<string>, s: string)
    requires members != []
    ensures At(WithCategory(out, w, c, members).at, s)
            == At(out.at, s) + if s in members then Times(w, MemberShare(c, members, s)) else 0.0
  {
    var own := Unique(members);
    ShareReceived(out, w, own, Shares(c, members), |own|, s);
    WholeSlice(own);
  }

  /**
   * Two funds of one category get weights in the ratio of their values when it is split by value and
   * worth something, and equal weights otherwise.
   */
  lemma {:induction false} FundsFollowValues(cats: Table, c: Choice, category: string, s: string, t: string)
    requires Distinct(cats.keys) && Disjoint(cats, c) && Weighted(cats, category)
    requires s in MembersOf(c, category) && t in MembersOf(c, category) && Expanded(cats, c, |cats.keys|).Ok?
    ensures var out := Expanded(cats, c, |cats.keys|).value.at;
      if c.byValue && Sum(c.current, MembersOf(c, category)) > 0.0
      then InRatio(At(out, s), At(out, t), At(c.current, s), At(c.current, t))
      else At(out, s) == At(out, t)
  {
    var members, w := MembersOf(c, category), At(cats.at, category);
    assert OnlyIn(cats, c, category, s) && OnlyIn(cats, c, category, t);
    FundWeight(cats, c, category, s);
    FundWeight(cats, c, category, t);
    if c.byValue && Sum(c.current, members) > 0.0 {
      SharesInRatio(w, c.current, members, s, t);
    }
  }

  lemma {:induction false} SharesInRatio(w: real, current: Amounts, members: seq<string>, s: string, t: string)
    requires members != [] && Sum(current, members) > 0.0
    ensures InRatio(Times(w, Share(current, members, s)), Times(w, Share(current, members, t)),
                    At(current, s), At(current, t))
  {
    PartsInRatio(Times(w, Share(current, members, s)), Times(w, Share(current, members, t)), current, members, w, s, t);
  }
}

/** Sums of a map's values along a list of keys, as the running totals of web/src/allocation.ts compute them. */
module Sums {
  import opened Prelude

  type Amounts = map<string, real>

  /** `map.get(key) ?? ZERO`. */
  function At(m: Amounts, key: string): real {
    if key in m then m[key] else 0.0
  }

  function Sum(m: Amounts, keys: seq<string>): real {
    if keys == [] then 0.0 else Sum(m, keys[..|keys| - 1]) + At(m, keys[|keys| - 1])
  }

  lemma SumSnoc(m: Amounts, keys: seq<string>, i: nat)
    requires i < |keys|
    ensures Sum(m, keys[..i + 1]) == Sum(m, keys[..i]) + At(m, keys[i])
  {
    assert keys[..i + 1][..i] == keys[..i];
  }

  /** Sums of maps that agree on the keys agree. */
  lemma {:induction false} SumSame(m: Amounts, n: Amounts, keys: seq<string>)
    requires forall k :: k in keys ==> At(m, k) == At(n, k)
    ensures Sum(m, keys) == Sum(n, keys)
  {
    if keys != [] { SumSame(m, n, keys[..|keys| - 1]); }
  }

  lemma {:induction false} SumMonotone(m: Amounts, n: Amounts, keys: seq<string>)
    requires forall k :: k in keys ==> At(m, k) <= At(n, k)
    ensures Sum(m, keys) <= Sum(n, keys)
  {
    if keys != [] { SumMonotone(m, n, keys[..|keys| - 1]); }
  }

  lemma {:induction false} SumZero(m: Amounts, keys: seq<string>)
    requires forall k :: k in keys ==> At(m, k) == 0.0
    ensures Sum(m, keys) == 0.0
  {
    if keys != [] { SumZero(m, keys[..|keys| - 1]); }
  }

  lemma {:induction false} SumNonNegative(m: Amounts, keys: seq<string>)
    requires forall k :: k in keys ==> At(m, k) >= 0.0
    ensures Sum(m, keys) >= 0.0
    ensures forall k :: k in keys ==> At(m, k) <= Sum(m, keys)
  {
    if keys != [] { SumNonNegative(m, keys[..|keys| - 1]); }
  }

  lemma Distribute(f: real, a: real, b: real)
    ensures f * (a + b) == f * a + f * b
  {}

  lemma {:induction false} SumAdd(out: Amounts, m: Amounts, n: Amounts, keys: seq<string>)
    requires forall k :: k in keys ==> At(out, k) == At(m, k) + At(n, k)
    ensures Sum(out, keys) == Sum(m, keys) + Sum(n, keys)
  {
    if keys != [] { SumAdd(out, m, n, keys[..|keys| - 1]); }
  }

  /** `out = f * n` on the keys. */
  lemma {:induction false} SumScaled(out: Amounts, n: Amounts, f: real, keys: seq<string>)
    requires forall k :: k in keys ==> At(out, k) == f * At(n, k)
    ensures Sum(out, keys) == f * Sum(n, keys)
  {
    if keys != [] {
      SumScaled(out, n, f, keys[..|keys| - 1]);
      Distribute(f, Sum(n, keys[..|keys| - 1]), At(n, keys[|keys| - 1]));
    }
  }

  /** Keys at which every value is the same. */
  lemma {:induction false} SumConstant(m: Amounts, c: real, keys: seq<string>)
    requires forall k :: k in keys ==> At(m, k) == c
    ensures Sum(m, keys) == c * |keys| as real
  {
    if keys != [] {
      SumConstant(m, c, keys[..|keys| - 1]);
      assert c * |keys| as real == c * (|keys| - 1) as real + c;
    }
  }

  lemma {:induction false} SumUpdate(m: Amounts, keys: seq<string>, b: string, v: real)
    requires Distinct(keys)
    ensures Sum(m[b := v], keys) == Sum(m, keys) + if b in keys then v - At(m, b) else 0.0
  {
    if keys != [] {
      DistinctPrefix(keys, |keys| - 1);
      SumUpdate(m, keys[..|keys| - 1], b, v);
    }
  }
}

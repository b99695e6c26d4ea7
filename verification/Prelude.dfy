/** Shapes of the source's language that every module below uses. */
module Prelude {

  /** A value the source writes as `null` or `undefined` when it is missing. */
  datatype Option<+T> = None | Some(value: T)

  /** A call that returns a value or throws. */
  datatype Result<+T, +E> = Ok(value: T) | Err(error: E)

  const HOUR_MS: int := 3_600_000
  const DAY_MS: int := 86_400_000

  ghost predicate Distinct<T>(s: seq<T>) {
    forall i, j :: 0 <= i < j < |s| ==> s[i] != s[j]
  }

  function Max(a: real, b: real): real { if a >= b then a else b }

  /** Two amounts in the ratio of two weights. */
  predicate InRatio(x: real, y: real, weightX: real, weightY: real) { x * weightY == y * weightX }

  function Abs(a: real): real { if a >= 0.0 then a else -a }

  lemma DistinctPrefix<T>(s: seq<T>, n: nat)
    requires n <= |s| && Distinct(s)
    ensures Distinct(s[..n])
    ensures n < |s| ==> s[n] !in s[..n]
  {}

  lemma WholeIsSnoc<T>(s: seq<T>)
    requires s != []
    ensures s == s[..|s| - 1] + [s[|s| - 1]]
  {}

  lemma WholeSlice<T>(s: seq<T>)
    ensures s[..|s|] == s
  {}

  lemma DistinctAppend<T>(a: seq<T>, b: seq<T>)
    requires Distinct(a) && Distinct(b) && forall x :: x in a ==> x !in b
    ensures Distinct(a + b)
  {
    forall i, j | 0 <= i < j < |a + b| ensures (a + b)[i] != (a + b)[j] {
      if i < |a| <= j { assert (a + b)[i] in a && (a + b)[j] in b; }
    }
  }

  lemma SubsetSize(a: set<nat>, b: set<nat>)
    requires a <= b
    ensures |a| <= |b|
  {
    assert b == a + (b - a);
  }

  lemma Least(s: set<nat>) returns (m: nat)
    requires s != {}
    ensures m in s && forall k :: k in s ==> m <= k
  {
    m :| m in s;
    while exists k :: k in s && k < m
      invariant m in s
      decreases m
    {
      var k :| k in s && k < m;
      m := k;
    }
  }

  /** Appends the elements that are not there yet. */
  function PushNew<T(==,!new)>(s: seq<T>, more: seq<T>): (r: seq<T>)
    ensures forall x :: x in r <==> x in s || x in more
    ensures Distinct(s) ==> Distinct(r)
  {
    if more == [] then s
    else
      var r := PushNew(s, more[..|more| - 1]);
      if more[|more| - 1] in r then r else r + [more[|more| - 1]]
  }

  /** `[...new Set(s)]`: each element once, where it first occurs. */
  function Unique<T(==,!new)>(s: seq<T>): (r: seq<T>)
    ensures forall x :: x in r <==> x in s
    ensures Distinct(r)
  {
    PushNew([], s)
  }

  lemma UniqueAppend<T(!new)>(seen: seq<T>, x: T)
    ensures Unique(seen + [x]) == if x in Unique(seen) then Unique(seen) else Unique(seen) + [x]
  {
    assert (seen + [x])[..|seen|] == seen;
  }

  lemma {:induction false} UniqueOfDistinct<T(!new)>(s: seq<T>)
    requires Distinct(s)
    ensures Unique(s) == s
  {
    if s != [] {
      DistinctPrefix(s, |s| - 1);
      UniqueOfDistinct(s[..|s| - 1]);
    }
  }
}

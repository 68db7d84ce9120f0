/** Small shared vocabulary: optional values, rounding of reals, and sums,
    counts and filters over sequences together with the facts about them
    that the rules and the aggregations rely on. */
module Util {

  datatype Option<+T> = None | Some(value: T)

  /** Math.ceil on an exact real. */
  function Ceil(x: real): (r: int)
    ensures r as real - 1.0 < x <= r as real
  {
    var f := x.Floor;
    if f as real == x then f else f + 1
  }

  /** Math.floor on an exact real. */
  function Floor(x: real): (r: int)
    ensures r as real <= x < r as real + 1.0
  {
    x.Floor
  }

  lemma CeilMonotone(x: real, y: real)
    requires x <= y
    ensures Ceil(x) <= Ceil(y)
  {
  }

  /** The unique integer k with k - 1 < x <= k is Ceil(x). */
  lemma CeilUnique(x: real, k: int)
    requires k as real - 1.0 < x <= k as real
    ensures Ceil(x) == k
  {
  }

  function Min(a: int, b: int): int { if a < b then a else b }
  function Max(a: int, b: int): int { if a < b then b else a }

  function MaxReal(a: real, b: real): (r: real)
    ensures r >= a && r >= b && (r == a || r == b)
  {
    if a < b then b else a
  }

  /** Clamp k into [lo, hi]. */
  function Clamp(k: int, lo: int, hi: int): (r: int)
    requires lo <= hi
    ensures lo <= r <= hi
    ensures lo <= k <= hi ==> r == k
    ensures k < lo ==> r == lo
    ensures hi < k ==> r == hi
  {
    Max(lo, Min(hi, k))
  }

  // ---------------------------------------------------------------------
  // Sums of reals (Array.prototype.reduce with `sum + f(x)`)

  function Sum<T>(s: seq<T>, f: T -> real): real
  {
    if s == [] then 0.0 else f(s[0]) + Sum(s[1..], f)
  }

  lemma {:induction false} SumAppend<T>(a: seq<T>, b: seq<T>, f: T -> real)
    ensures Sum(a + b, f) == Sum(a, f) + Sum(b, f)
  {
    if a == [] {
      assert a + b == b;
    } else {
      assert (a + b)[1..] == a[1..] + b;
      SumAppend(a[1..], b, f);
    }
  }

  /** A left-to-right accumulation step: the sum of a prefix one longer. */
  lemma SumPrefixStep<T>(s: seq<T>, i: nat, f: T -> real)
    requires i < |s|
    ensures Sum(s[..i + 1], f) == Sum(s[..i], f) + f(s[i])
  {
    assert s[..i + 1] == s[..i] + [s[i]];
    SumAppend(s[..i], [s[i]], f);
  }

  /** Reordering the summands does not change a sum. */
  lemma {:induction false} SumPermutation<T>(a: seq<T>, b: seq<T>, f: T -> real)
    requires multiset(a) == multiset(b)
    ensures Sum(a, f) == Sum(b, f)
  {
    if a == [] {
      assert |b| == |multiset(b)| == 0;
    } else {
      var j := MatchHead(a, b);
      var rest := b[..j] + b[j + 1..];
      assert b == b[..j] + [b[j]] + b[j + 1..];
      SumAppend(b[..j] + [b[j]], b[j + 1..], f);
      SumAppend(b[..j], [b[j]], f);
      SumAppend(b[..j], b[j + 1..], f);
      SumPermutation(a[1..], rest, f);
    }
  }

  /** For two permutations of each other, the head of the first occurs in the
      second at some index j, and the tails match once b[j] is taken out. */
  lemma MatchHead<T>(a: seq<T>, b: seq<T>) returns (j: nat)
    requires a != [] && multiset(a) == multiset(b)
    ensures j < |b| && b[j] == a[0]
    ensures multiset(a[1..]) == multiset(b[..j] + b[j + 1..])
  {
    assert a[0] in multiset(b);
    j :| 0 <= j < |b| && b[j] == a[0];
    assert a == [a[0]] + a[1..];
    assert b == b[..j] + [b[j]] + b[j + 1..];
    assert multiset(b) == multiset(b[..j]) + multiset{b[j]} + multiset(b[j + 1..]);
    assert multiset(a) == multiset{a[0]} + multiset(a[1..]);
    assert multiset(b[..j] + b[j + 1..]) == multiset(b[..j]) + multiset(b[j + 1..]);
    assert multiset(a[1..]) == multiset(a) - multiset{a[0]};
    assert multiset(b[..j]) + multiset(b[j + 1..]) == multiset(b) - multiset{b[j]};
  }

  // ---------------------------------------------------------------------
  // Counting (`filter(p).length`)

  function Count<T>(s: seq<T>, p: T -> bool): (n: nat)
    ensures n <= |s|
  {
    if s == [] then 0 else (if p(s[0]) then 1 else 0) + Count(s[1..], p)
  }

  lemma {:induction false} CountAppend<T>(a: seq<T>, b: seq<T>, p: T -> bool)
    ensures Count(a + b, p) == Count(a, p) + Count(b, p)
  {
    if a == [] {
      assert a + b == b;
    } else {
      assert (a + b)[1..] == a[1..] + b;
      CountAppend(a[1..], b, p);
    }
  }

  lemma {:induction false} CountPermutation<T>(a: seq<T>, b: seq<T>, p: T -> bool)
    requires multiset(a) == multiset(b)
    ensures Count(a, p) == Count(b, p)
  {
    if a == [] {
      assert |b| == |multiset(b)| == 0;
    } else {
      var j := MatchHead(a, b);
      var rest := b[..j] + b[j + 1..];
      assert b == b[..j] + [b[j]] + b[j + 1..];
      CountAppend(b[..j] + [b[j]], b[j + 1..], p);
      CountAppend(b[..j], [b[j]], p);
      CountAppend(b[..j], b[j + 1..], p);
      CountPermutation(a[1..], rest, p);
    }
  }

  /** Count is positive exactly when some element satisfies p (`some`). */
  lemma {:induction false} CountPositive<T>(s: seq<T>, p: T -> bool)
    ensures Count(s, p) > 0 <==> exists i :: 0 <= i < |s| && p(s[i])
  {
    if s != [] {
      CountPositive(s[1..], p);
      if exists i :: 0 <= i < |s| && p(s[i]) {
        var i :| 0 <= i < |s| && p(s[i]);
        if i > 0 {
          assert p(s[1..][i - 1]);
        }
      }
      if exists i :: 0 <= i < |s[1..]| && p(s[1..][i]) {
        var i :| 0 <= i < |s[1..]| && p(s[1..][i]);
        assert p(s[i + 1]);
      }
    }
  }

  /** Counting agrees on two sequences whose elements agree on p pointwise. */
  lemma {:induction false} CountCongruent<T>(a: seq<T>, b: seq<T>, p: T -> bool)
    requires |a| == |b|
    requires forall i :: 0 <= i < |a| ==> p(a[i]) == p(b[i])
    ensures Count(a, p) == Count(b, p)
  {
    if a != [] {
      CountCongruent(a[1..], b[1..], p);
    }
  }

  /** The conjunction of two predicates. */
  function Both<T>(p: T -> bool, q: T -> bool): T -> bool
  {
    x => p(x) && q(x)
  }

  // ---------------------------------------------------------------------
  // Sums of integers

  function SumInt<T>(s: seq<T>, f: T -> int): int
  {
    if s == [] then 0 else f(s[0]) + SumInt(s[1..], f)
  }

  lemma {:induction false} SumIntAppend<T>(a: seq<T>, b: seq<T>, f: T -> int)
    ensures SumInt(a + b, f) == SumInt(a, f) + SumInt(b, f)
  {
    if a == [] {
      assert a + b == b;
    } else {
      assert (a + b)[1..] == a[1..] + b;
      SumIntAppend(a[1..], b, f);
    }
  }

  lemma SumIntPrefixStep<T>(s: seq<T>, i: nat, f: T -> int)
    requires i < |s|
    ensures SumInt(s[..i + 1], f) == SumInt(s[..i], f) + f(s[i])
  {
    assert s[..i + 1] == s[..i] + [s[i]];
    SumIntAppend(s[..i], [s[i]], f);
  }

  lemma {:induction false} SumIntPermutation<T>(a: seq<T>, b: seq<T>, f: T -> int)
    requires multiset(a) == multiset(b)
    ensures SumInt(a, f) == SumInt(b, f)
  {
    if a == [] {
      assert |b| == |multiset(b)| == 0;
    } else {
      var j := MatchHead(a, b);
      var rest := b[..j] + b[j + 1..];
      assert b == b[..j] + [b[j]] + b[j + 1..];
      SumIntAppend(b[..j] + [b[j]], b[j + 1..], f);
      SumIntAppend(b[..j], [b[j]], f);
      SumIntAppend(b[..j], b[j + 1..], f);
      SumIntPermutation(a[1..], rest, f);
    }
  }

  // ---------------------------------------------------------------------
  // Filtering (`Array.prototype.filter`)

  function Filter<T(==)>(s: seq<T>, p: T -> bool): (r: seq<T>)
    ensures |r| <= |s|
    ensures forall i :: 0 <= i < |r| ==> r[i] in s && p(r[i])
    ensures forall i :: 0 <= i < |s| && p(s[i]) ==> s[i] in r
  {
    if s == [] then []
    else if p(s[0]) then [s[0]] + Filter(s[1..], p)
    else Filter(s[1..], p)
  }

  lemma {:induction false} FilterAppend<T>(a: seq<T>, b: seq<T>, p: T -> bool)
    ensures Filter(a + b, p) == Filter(a, p) + Filter(b, p)
  {
    if a == [] {
      assert a + b == b;
    } else {
      assert (a + b)[1..] == a[1..] + b;
      FilterAppend(a[1..], b, p);
    }
  }

  /** An element the predicate rejects can be dropped before filtering. */
  lemma FilterSkip<T>(a: seq<T>, x: T, b: seq<T>, p: T -> bool)
    requires !p(x)
    ensures Filter(a + [x] + b, p) == Filter(a + b, p)
  {
    FilterAppend(a + [x], b, p);
    FilterAppend(a, [x], p);
    FilterAppend(a, b, p);
    assert Filter([x], p) == [];
  }

  /** Filtering keeps each element in its place or drops it. */
  lemma FilterSplits<T>(a: seq<T>, x: T, b: seq<T>, p: T -> bool)
    ensures Filter(a + [x] + b, p) == Filter(a, p) + (if p(x) then [x] else []) + Filter(b, p)
  {
    FilterAppend(a + [x], b, p);
    FilterAppend(a, [x], p);
    FilterSingle(x, p);
  }

  lemma FilterSingle<T>(x: T, p: T -> bool)
    ensures Filter([x], p) == if p(x) then [x] else []
  {
    assert [x][1..] == [];
  }

  /** The length of a filter is the count of its predicate. */
  lemma {:induction false} FilterLength<T>(s: seq<T>, p: T -> bool)
    ensures |Filter(s, p)| == Count(s, p)
  {
    if s != [] {
      FilterLength(s[1..], p);
    }
  }

  /** Filtering keeps the original relative order: if the input is strictly
      increasing under `key`, so is the output. */
  lemma {:induction false} FilterKeepsOrder<T>(s: seq<T>, p: T -> bool, key: T -> int)
    requires forall i, j :: 0 <= i < j < |s| ==> key(s[i]) < key(s[j])
    ensures forall i, j :: 0 <= i < j < |Filter(s, p)| ==> key(Filter(s, p)[i]) < key(Filter(s, p)[j])
  {
    if s != [] {
      FilterKeepsOrder(s[1..], p, key);
      var r := Filter(s[1..], p);
      if p(s[0]) {
        forall j | 0 < j < |[s[0]] + r|
          ensures key(s[0]) < key(([s[0]] + r)[j])
        {
          assert ([s[0]] + r)[j] == r[j - 1];
          assert r[j - 1] in s[1..];
        }
      }
    }
  }

  /** Filtering with a predicate that holds of every element is the identity. */
  lemma {:induction false} FilterAll<T>(s: seq<T>, p: T -> bool)
    requires forall i :: 0 <= i < |s| ==> p(s[i])
    ensures Filter(s, p) == s
  {
    if s != [] {
      FilterAll(s[1..], p);
      assert s == [s[0]] + s[1..];
    }
  }

  /** Counting q over the elements that pass p is counting both at once. */
  lemma {:induction false} CountFilter<T>(s: seq<T>, p: T -> bool, q: T -> bool)
    ensures Count(Filter(s, p), q) == Count(s, Both(p, q))
  {
    if s != [] {
      CountFilter(s[1..], p, q);
      if p(s[0]) {
        assert Filter(s, p) == [s[0]] + Filter(s[1..], p);
        assert (([s[0]] + Filter(s[1..], p))[1..]) == Filter(s[1..], p);
      }
    }
  }

  /** Summing over the elements that pass p is summing f where p holds and
      0 elsewhere. */
  lemma {:induction false} SumIntFilter<T>(s: seq<T>, p: T -> bool, f: T -> int, g: T -> int)
    requires forall x :: g(x) == (if p(x) then f(x) else 0)
    ensures SumInt(Filter(s, p), f) == SumInt(s, g)
  {
    if s != [] {
      SumIntFilter(s[1..], p, f, g);
      if p(s[0]) {
        assert (([s[0]] + Filter(s[1..], p))[1..]) == Filter(s[1..], p);
      }
    }
  }

  /** `findIndex`: the position of the first element satisfying p, or -1. */
  function FindIndex<T>(s: seq<T>, p: T -> bool): (r: int)
    ensures -1 <= r < |s|
    ensures r >= 0 ==> p(s[r]) && forall j :: 0 <= j < r ==> !p(s[j])
    ensures r == -1 ==> forall j :: 0 <= j < |s| ==> !p(s[j])
  {
    if s == [] then -1
    else if p(s[0]) then 0
    else
      var k := FindIndex(s[1..], p);
      if k == -1 then -1 else k + 1
  }

  /** Two predicates that agree on every element filter alike. */
  lemma {:induction false} FilterCongruent<T>(s: seq<T>, p: T -> bool, q: T -> bool)
    requires forall i :: 0 <= i < |s| ==> p(s[i]) == q(s[i])
    ensures Filter(s, p) == Filter(s, q)
  {
    if s != [] {
      FilterCongruent(s[1..], p, q);
    }
  }

  /** `xs.map((x, k) => f(x, k))`. */
  function MapIndexed<T, U>(xs: seq<T>, f: (T, nat) -> U): (r: seq<U>)
    ensures |r| == |xs|
    ensures forall k :: 0 <= k < |xs| ==> r[k] == f(xs[k], k)
  {
    seq(|xs|, k requires 0 <= k < |xs| => f(xs[k], k))
  }

  /** Mapping one more element appends its image, numbered by its place. */
  lemma MapIndexedSnoc<T, U>(xs: seq<T>, i: nat, f: (T, nat) -> U)
    requires i < |xs|
    ensures MapIndexed(xs[..i + 1], f) == MapIndexed(xs[..i], f) + [f(xs[i], i)]
  {
    var a := MapIndexed(xs[..i + 1], f);
    var b := MapIndexed(xs[..i], f) + [f(xs[i], i)];
    assert |a| == |b|;
    forall k | 0 <= k < |a|
      ensures a[k] == b[k]
    {
      if k < i {
        assert xs[..i + 1][k] == xs[..i][k];
      }
    }
  }

  /** `xs.map(f)`. */
  function Map<T, U>(xs: seq<T>, f: T -> U): (r: seq<U>)
    ensures |r| == |xs|
    ensures forall k :: 0 <= k < |xs| ==> r[k] == f(xs[k])
  {
    seq(|xs|, k requires 0 <= k < |xs| => f(xs[k]))
  }

  /** Concatenation is associative; stated once, for any element type, so
      that proofs over sequences of strings need not compare strings. */
  lemma AppendAssoc<T>(a: seq<T>, b: seq<T>, c: seq<T>)
    ensures (a + b) + c == a + (b + c)
  {
  }

  lemma AppendEmpty<T>(a: seq<T>)
    ensures [] + a == a && a + [] == a
  {
  }

  lemma MapTail<T, U>(xs: seq<T>, f: T -> U)
    requires xs != []
    ensures Map(xs, f)[1..] == Map(xs[1..], f)
  {
    assert |Map(xs, f)[1..]| == |Map(xs[1..], f)|;
  }

  lemma MapCons<T, U>(xs: seq<T>, f: T -> U)
    requires xs != []
    ensures Map(xs, f) == [f(xs[0])] + Map(xs[1..], f)
  {
    MapTail(xs, f);
    assert Map(xs, f) == [Map(xs, f)[0]] + Map(xs, f)[1..];
  }
}

/** Sequence helpers shared by the modules: JavaScript's `splice(i, 1)` and `filter`,
    and the order facts the contracts are phrased in. */
module Seqs {

  ghost predicate Distinct<T>(s: seq<T>) {
    forall i, j :: 0 <= i < j < |s| ==> s[i] != s[j]
  }

  ghost predicate Increasing(s: seq<int>) {
    forall i, j :: 0 <= i < j < |s| ==> s[i] < s[j]
  }

  /** No value occurs twice. */
  ghost predicate NoRepeats<T(!new)>(s: seq<T>) {
    forall x :: multiset(s)[x] <= 1
  }

  ghost predicate Sorted(s: seq<int>) {
    forall i, j :: 0 <= i < j < |s| ==> s[i] <= s[j]
  }

  /** A sequence whose positions hold pairwise different values has no repeats. */
  lemma {:induction false} DistinctHasNoRepeats<T(!new)>(s: seq<T>)
    requires Distinct(s)
    ensures NoRepeats(s)
  {
    if s != [] {
      DistinctHasNoRepeats(s[1..]);
      assert s == [s[0]] + s[1..];
      assert s[0] !in s[1..];
    }
  }

  /** The parts of a concatenation: the first part, each element of the second, and a
      suffix of the second. */
  lemma AppendShape<T>(p: seq<T>, q: seq<T>, i: nat)
    requires i <= |q|
    ensures |p + q| == |p| + |q| && (p + q)[..|p|] == p
    ensures forall k :: |p| <= k < |p| + |q| ==> (p + q)[k] == q[k - |p|]
    ensures (p + q)[|p| + i..] == q[i..]
  {
  }

  /** `array.splice(i, 1)` on a local array: the rest of the array, in order. */
  function RemoveAt<T>(s: seq<T>, i: nat): (r: seq<T>)
    requires i < |s|
    ensures |r| == |s| - 1
    ensures forall j :: 0 <= j < |r| ==> r[j] == if j < i then s[j] else s[j + 1]
    ensures multiset(r) + multiset{s[i]} == multiset(s)
  {
    assert s == s[..i] + [s[i]] + s[i + 1..];
    s[..i] + s[i + 1..]
  }

  /** `ids.filter((id) => id !== x)`: every occurrence of `x` goes, the rest keep their order. */
  function Without(s: seq<string>, x: string): (r: seq<string>)
    ensures x !in r
    ensures forall y :: y in r <==> y in s && y != x
    ensures forall y :: y != x ==> multiset(r)[y] == multiset(s)[y]
    ensures |r| <= |s|
  {
    if s == [] then []
    else
      assert s == [s[0]] + s[1..];
      if s[0] == x then Without(s[1..], x) else [s[0]] + Without(s[1..], x)
  }

  /** `s.map(f)` */
  function Map<T, U>(f: T -> U, s: seq<T>): (r: seq<U>)
    ensures |r| == |s| && forall k :: 0 <= k < |s| ==> r[k] == f(s[k])
  {
    seq(|s|, k requires 0 <= k < |s| => f(s[k]))
  }

  lemma MultisetCancel<T>(a: multiset<T>, b: multiset<T>, x: T)
    requires a + multiset{x} == b + multiset{x}
    ensures a == b
  {
    forall y
      ensures a[y] == b[y]
    {
      assert (a + multiset{x})[y] == a[y] + multiset{x}[y];
      assert (b + multiset{x})[y] == b[y] + multiset{x}[y];
    }
  }

  /** Mapping two permutations of each other gives two permutations of each other. */
  lemma {:induction false} MapPermutation<T, U>(f: T -> U, a: seq<T>, b: seq<T>)
    requires multiset(a) == multiset(b)
    ensures multiset(Map(f, a)) == multiset(Map(f, b))
    decreases |a|
  {
    if a != [] {
      var x := a[0];
      assert x in multiset(b);
      var j :| 0 <= j < |b| && b[j] == x;
      var rest := RemoveAt(b, j);
      assert RemoveAt(a, 0) == a[1..];
      MultisetCancel(multiset(a[1..]), multiset(rest), x);
      MapPermutation(f, a[1..], rest);
      MapRemoveAt(f, a, 0);
      MapRemoveAt(f, b, j);
    }
  }

  /** Removing a position and then mapping is mapping and then removing that position;
      the mapped sequence so loses one occurrence of the removed element's image. */
  lemma MapRemoveAt<T, U>(f: T -> U, s: seq<T>, i: nat)
    requires i < |s|
    ensures multiset(Map(f, RemoveAt(s, i))) + multiset{f(s[i])} == multiset(Map(f, s))
  {
    assert Map(f, RemoveAt(s, i)) == RemoveAt(Map(f, s), i);
  }

  /** A prefix of a permutation of `s` takes no element more often than `s` holds it. */
  lemma PrefixOfPermutation<T>(p: seq<T>, s: seq<T>, n: nat)
    requires multiset(p) == multiset(s) && n <= |p|
    ensures multiset(p[..n]) <= multiset(s)
    ensures forall k :: 0 <= k < n ==> p[k] in s
  {
    assert p == p[..n] + p[n..];
    forall k | 0 <= k < n
      ensures p[k] in s
    {
      assert p[k] in multiset(s);
    }
  }
}

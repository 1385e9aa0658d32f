/** Sequence operations shared by the registry, the handoff policy and the
    coordinator: the JavaScript array methods `find`/`findIndex`, `filter`,
    `flatMap` and `slice(-n)`, each defined once with its characterising
    contract. */
module Seqs {

  /** `xs` is obtained from `ys` by deleting some elements, keeping order. */
  predicate IsSubsequence<T(==)>(xs: seq<T>, ys: seq<T>)
    decreases |ys|
  {
    if |xs| == 0 then true
    else if |ys| == 0 then false
    else if xs[0] == ys[0] then IsSubsequence(xs[1..], ys[1..])
    else IsSubsequence(xs, ys[1..])
  }

  /** Dropping a prefix of a concatenation leaves the second part. */
  lemma DropPrefix<T>(a: seq<T>, b: seq<T>)
    ensures (a + b)[|a|..] == b
  {
  }

  /** A sequence extending a prefix is the prefix followed by the rest. */
  lemma PrefixSplit<T>(a: seq<T>, b: seq<T>)
    requires a <= b
    ensures b == a + b[|a|..]
  {
  }

  /** The part a chain of three extensions adds after `a`: one element, then
      what `c` adds, then what `d` adds. */
  lemma ExtensionParts<T>(a: seq<T>, b: seq<T>, c: seq<T>, d: seq<T>)
    requires |b| == |a| + 1 && a <= b && b <= c && c <= d
    ensures d[|a|..] == [b[|a|]] + c[|b|..] + d[|c|..]
  {
    PrefixSplit(b, c);
    PrefixSplit(c, d);
    assert b == a + [b[|a|]];
    assert d == a + ([b[|a|]] + c[|b|..] + d[|c|..]);
    DropPrefix(a, [b[|a|]] + c[|b|..] + d[|c|..]);
  }

  /** The last element of a non-empty sequence. */
  function Last<T>(xs: seq<T>): T
    requires |xs| > 0
  {
    xs[|xs| - 1]
  }

  /** Index of the first element satisfying `p`, or `|xs|` when there is
      none (the search behind `Array.prototype.find`). */
  function FirstIndex<T>(xs: seq<T>, p: T -> bool): (k: nat)
    ensures k <= |xs|
    ensures forall j :: 0 <= j < k ==> !p(xs[j])
    ensures k < |xs| ==> p(xs[k])
    decreases |xs|
  {
    if |xs| == 0 then 0
    else if p(xs[0]) then 0
    else 1 + FirstIndex(xs[1..], p)
  }

  /** `Array.prototype.filter`: the elements satisfying `p`, in order. */
  function Filter<T>(xs: seq<T>, p: T -> bool): (r: seq<T>)
    ensures |r| <= |xs|
    ensures forall i :: 0 <= i < |r| ==> p(r[i])
    decreases |xs|
  {
    if |xs| == 0 then []
    else
      var rest := Filter(xs[1..], p);
      if p(xs[0]) then [xs[0]] + rest else rest
  }

  /** `Filter` keeps exactly the elements satisfying `p`. */
  lemma {:induction false} FilterMembers<T(!new)>(xs: seq<T>, p: T -> bool)
    ensures forall x :: x in Filter(xs, p) <==> x in xs && p(x)
    decreases |xs|
  {
    if |xs| > 0 {
      FilterMembers(xs[1..], p);
      assert xs == [xs[0]] + xs[1..];
    }
  }

  /** `Filter` keeps each element satisfying `p` as often as it occurs. */
  lemma {:induction false} FilterCounts<T(!new)>(xs: seq<T>, p: T -> bool)
    ensures forall x :: multiset(Filter(xs, p))[x] == (if p(x) then multiset(xs)[x] else 0)
    decreases |xs|
  {
    if |xs| > 0 {
      FilterCounts(xs[1..], p);
      assert xs == [xs[0]] + xs[1..];
    }
  }

  /** `Filter` keeps the order of `xs`. */
  lemma {:induction false} FilterKeepsOrder<T>(xs: seq<T>, p: T -> bool)
    ensures IsSubsequence(Filter(xs, p), xs)
    decreases |xs|
  {
    if |xs| > 0 {
      FilterKeepsOrder(xs[1..], p);
    }
  }

  /** When every element satisfies `p`, `Filter` keeps everything. */
  lemma {:induction false} FilterKeepsAll<T>(xs: seq<T>, p: T -> bool)
    requires forall i :: 0 <= i < |xs| ==> p(xs[i])
    ensures Filter(xs, p) == xs
    decreases |xs|
  {
    if |xs| > 0 {
      FilterKeepsAll(xs[1..], p);
      assert xs == [xs[0]] + xs[1..];
    }
  }

  /** `Array.prototype.flatMap`: the concatenation of `f` applied to each
      element, in order. */
  function FlatMap<T, U(!new)>(xs: seq<T>, f: T -> seq<U>): (r: seq<U>)
    ensures forall u :: u in r <==> exists i :: 0 <= i < |xs| && u in f(xs[i])
    ensures |r| == 0 <==> forall i :: 0 <= i < |xs| ==> |f(xs[i])| == 0
    decreases |xs|
  {
    if |xs| == 0 then []
    else f(xs[0]) + FlatMap(xs[1..], f)
  }

  /** `Array.prototype.slice(-n)` for `n > 0`: the last `n` elements, or all
      of them when there are fewer. */
  function TakeLast<T>(xs: seq<T>, n: nat): (r: seq<T>)
    ensures |r| == if |xs| <= n then |xs| else n
    ensures xs == xs[..|xs| - |r|] + r
  {
    if |xs| <= n then xs else xs[|xs| - n..]
  }
}

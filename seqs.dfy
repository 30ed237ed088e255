/** The Array operations (`filter`, `find`, `findIndex`, `Map` look-ups, sums) the application uses. */
module Seqs {
  import opened Wrappers

  /** `r` keeps some of the elements of `s`, in their original order. */
  ghost predicate IsSubseq<T>(r: seq<T>, s: seq<T>)
  {
    if r == [] then true
    else if s == [] then false
    else (r[0] == s[0] && IsSubseq(r[1..], s[1..])) || IsSubseq(r, s[1..])
  }

  /** Keeping some of what was kept from `t` keeps some of `t`. */
  lemma {:induction false} SubseqTrans<T>(r: seq<T>, s: seq<T>, t: seq<T>)
    requires IsSubseq(r, s) && IsSubseq(s, t)
    ensures IsSubseq(r, t)
    decreases |t|
  {
    if r != [] && s != [] && t != [] {
      if s[0] == t[0] && IsSubseq(s[1..], t[1..]) {
        if r[0] == s[0] && IsSubseq(r[1..], s[1..]) {
          SubseqTrans(r[1..], s[1..], t[1..]);
        } else {
          SubseqTrans(r, s[1..], t[1..]);
        }
      } else {
        SubseqTrans(r, s, t[1..]);
      }
    }
  }

  /** A prefix keeps the first elements, so it is a subsequence. */
  lemma {:induction false} PrefixIsSubseq<T>(r: seq<T>, s: seq<T>)
    requires r <= s
    ensures IsSubseq(r, s)
    decreases |s|
  {
    if r != [] {
      assert r[1..] <= s[1..];
      PrefixIsSubseq(r[1..], s[1..]);
    }
  }

  /** A sequence with no member is empty. */
  lemma EmptyWhenNoMember<T>(s: seq<T>)
    ensures (forall x :: x !in s) ==> s == []
  {
    if s != [] {
      assert s[0] in s;
    }
  }

  /**
   * `s.filter(p)`: every element that passes `p`, as many times as it
   * occurs and in its original order, and nothing else.
   */
  function Filter<T(!new)>(s: seq<T>, p: T -> bool): (r: seq<T>)
    ensures |r| <= |s|
    ensures forall x :: x in r <==> x in s && p(x)
    ensures IsSubseq(r, s)
  {
    if s == [] then []
    else if p(s[0]) then [s[0]] + Filter(s[1..], p)
    else Filter(s[1..], p)
  }

  /** `Filter` keeps each passing element as many times as it occurs, and drops every other. */
  lemma {:induction false} FilterMultiset<T(!new)>(s: seq<T>, p: T -> bool)
    ensures forall x :: multiset(Filter(s, p))[x] == if p(x) then multiset(s)[x] else 0
  {
    if s != [] {
      FilterMultiset(s[1..], p);
      assert s == [s[0]] + s[1..];
    }
  }

  /** `s.map(key)`: the key of each element, in order. */
  function Project<T, K>(s: seq<T>, key: T -> K): (r: seq<K>)
    ensures |r| == |s|
    ensures forall i :: 0 <= i < |s| ==> r[i] == key(s[i])
  {
    seq(|s|, i requires 0 <= i < |s| => key(s[i]))
  }

  /** Keeping the elements whose key is `k` keeps as many as `k` occurs among the keys. */
  lemma {:induction false} FilterCountsKey<T(!new), K>(s: seq<T>, p: T -> bool, key: T -> K, k: K)
    requires forall x :: p(x) <==> key(x) == k
    ensures |Filter(s, p)| == multiset(Project(s, key))[k]
  {
    if s != [] {
      FilterCountsKey(s[1..], p, key, k);
      assert Project(s, key) == [key(s[0])] + Project(s[1..], key);
    }
  }

  /** `[x]` when `x` passes, else nothing. */
  function IfPasses<T>(x: T, p: T -> bool): seq<T>
  {
    if p(x) then [x] else []
  }

  /** Filtering takes the first element if it passes, then filters the rest. */
  lemma FilterStep<T(!new)>(s: seq<T>, p: T -> bool)
    requires s != []
    ensures Filter(s, p) == IfPasses(s[0], p) + Filter(s[1..], p)
  {
  }

  /** Filtering two elements keeps each one that passes, in order. */
  lemma FilterTwo<T(!new)>(s: seq<T>, p: T -> bool)
    requires |s| == 2
    ensures Filter(s, p) == IfPasses(s[0], p) + IfPasses(s[1], p)
  {
    FilterStep(s[1..], p);
    FilterStep(s, p);
    assert s[1..][1..] == [];
  }

  /** Filtering three elements keeps each one that passes, in order. */
  lemma FilterThree<T(!new)>(s: seq<T>, p: T -> bool)
    requires |s| == 3
    ensures Filter(s, p) == IfPasses(s[0], p) + IfPasses(s[1], p) + IfPasses(s[2], p)
  {
    FilterTwo(s[1..], p);
    FilterStep(s, p);
    assert s[1..][0] == s[1] && s[1..][1] == s[2];
  }

  /** Filtering four elements keeps each one that passes, in order. */
  lemma FilterFour<T(!new)>(s: seq<T>, p: T -> bool)
    requires |s| == 4
    ensures Filter(s, p) == IfPasses(s[0], p) + IfPasses(s[1], p) + IfPasses(s[2], p) + IfPasses(s[3], p)
  {
    var t := s[1..];
    assert t[0] == s[1] && t[1] == s[2] && t[2] == s[3];
    FilterThree(t, p);
    FilterStep(s, p);
    var a, b, c, d := IfPasses(s[0], p), IfPasses(s[1], p), IfPasses(s[2], p), IfPasses(s[3], p);
    assert Filter(s, p) == a + (b + c + d);
    AppendFour(a, b, c, d);
  }

  /** Concatenation regrouped: four pieces with the last three bracketed. */
  lemma AppendFour<T>(a: seq<T>, b: seq<T>, c: seq<T>, d: seq<T>)
    ensures a + (b + c + d) == a + b + c + d
  {
  }

  /** Every sequence is a subsequence of itself. */
  lemma {:induction false} SubseqRefl<T>(s: seq<T>)
    ensures IsSubseq(s, s)
  {
    if s != [] {
      SubseqRefl(s[1..]);
    }
  }

  /** `if (apply) list = list.filter(p)`: a filter step that only runs when its filter is set. */
  function FilterWhen<T(!new)>(apply: bool, s: seq<T>, p: T -> bool): (r: seq<T>)
    ensures IsSubseq(r, s)
    ensures forall x :: x in r <==> x in s && (apply ==> p(x))
  {
    if apply then Filter(s, p) else SubseqRefl(s); s
  }

  /** A filter that every element passes leaves the sequence as it is. */
  lemma {:induction false} FilterKeepsAll<T(!new)>(s: seq<T>, p: T -> bool)
    requires forall x :: x in s ==> p(x)
    ensures Filter(s, p) == s
  {
    if s != [] {
      FilterKeepsAll(s[1..], p);
    }
  }

  /** Two filters in a row keep what their conjunction keeps. */
  lemma {:induction false} FilterTwice<T(!new)>(s: seq<T>, p: T -> bool, q: T -> bool, pq: T -> bool)
    requires forall x :: pq(x) == (p(x) && q(x))
    ensures Filter(Filter(s, p), q) == Filter(s, pq)
  {
    if s != [] {
      FilterTwice(s[1..], p, q, pq);
    }
  }

  /** Filtering distributes over concatenation. */
  lemma {:induction false} FilterAppend<T(!new)>(a: seq<T>, b: seq<T>, p: T -> bool)
    ensures Filter(a + b, p) == Filter(a, p) + Filter(b, p)
  {
    if a == [] {
      assert a + b == b;
    } else {
      var ab := a + b;
      assert ab[0] == a[0] && ab[1..] == a[1..] + b;
      FilterAppend(a[1..], b, p);
      var rest := Filter(a[1..], p) + Filter(b, p);
      if p(a[0]) {
        calc {
          Filter(ab, p);
          [a[0]] + rest;
          ([a[0]] + Filter(a[1..], p)) + Filter(b, p);
        }
      } else {
        assert Filter(ab, p) == rest;
      }
    }
  }

  /** A sequence without repeated elements. */
  predicate NoDuplicates<T(==)>(s: seq<T>)
  {
    forall i, j :: 0 <= i < j < |s| ==> s[i] != s[j]
  }

  /** Filtering cannot introduce a repetition. */
  lemma {:induction false} FilterNoDuplicates<T(!new)>(s: seq<T>, p: T -> bool)
    requires NoDuplicates(s)
    ensures NoDuplicates(Filter(s, p))
  {
    if s != [] {
      FilterNoDuplicates(s[1..], p);
      assert s[0] !in s[1..];
    }
  }

  /** `s.findIndex(p)`: the first index whose element passes `p`, or `None` for JavaScript's -1. */
  function FindIndex<T>(s: seq<T>, p: T -> bool): (r: Option<nat>)
    ensures r.Some? ==> r.value < |s| && p(s[r.value])
    ensures r.Some? ==> forall j :: 0 <= j < r.value ==> !p(s[j])
    ensures r.None? <==> forall j :: 0 <= j < |s| ==> !p(s[j])
  {
    if s == [] then None
    else if p(s[0]) then Some(0)
    else match FindIndex(s[1..], p)
      case None => None
      case Some(k) => Some(k + 1)
  }

  /** `s.find(p)`: the first element that passes `p`. */
  function Find<T(!new)>(s: seq<T>, p: T -> bool): (r: Option<T>)
    ensures r.None? <==> forall x :: x in s ==> !p(x)
    ensures r.Some? ==> exists i :: 0 <= i < |s| && s[i] == r.value && p(s[i]) && forall j :: 0 <= j < i ==> !p(s[j])
  {
    match FindIndex(s, p)
    case None => None
    case Some(i) => Some(s[i])
  }

  /** The element a `new Map(entries)` look-up returns: the LAST entry that passes `p` wins. */
  function FindLast<T(!new)>(s: seq<T>, p: T -> bool): (r: Option<T>)
    ensures r.None? <==> forall x :: x in s ==> !p(x)
    ensures r.Some? ==> exists i :: 0 <= i < |s| && s[i] == r.value && p(s[i]) && forall j :: i < j < |s| ==> !p(s[j])
  {
    if s == [] then None
    else if p(s[|s| - 1]) then Some(s[|s| - 1])
    else
      var r := FindLast(s[..|s| - 1], p);
      assert forall x :: x in s ==> x in s[..|s| - 1] || x == s[|s| - 1];
      r
  }

  /** The sum of `f` over `s`, as `reduce((acc, x) => acc + f(x), 0)` computes it. */
  function SumBy<T>(s: seq<T>, f: T -> int): int
  {
    if s == [] then 0 else f(s[0]) + SumBy(s[1..], f)
  }

  /** A sum over a concatenation is the sum of the two sums. */
  lemma {:induction false} SumByAppend<T>(a: seq<T>, b: seq<T>, f: T -> int)
    ensures SumBy(a + b, f) == SumBy(a, f) + SumBy(b, f)
  {
    if a != [] {
      SumByAppend(a[1..], b, f);
      assert (a + b)[1..] == a[1..] + b;
    } else {
      assert a + b == b;
    }
  }

  /** A sum of non-negative terms is non-negative. */
  lemma {:induction false} SumByNonNegative<T>(s: seq<T>, f: T -> int)
    requires forall x :: x in s ==> f(x) >= 0
    ensures SumBy(s, f) >= 0
  {
    if s != [] {
      SumByNonNegative(s[1..], f);
    }
  }

  /** `s.slice(0, n)` for a non-negative `n`. */
  function Take<T>(s: seq<T>, n: nat): (r: seq<T>)
    ensures |r| == if n < |s| then n else |s|
    ensures r <= s
  {
    if n < |s| then s[..n] else s
  }
}

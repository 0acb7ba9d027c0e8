/**
 * Sequence operations behind the list code of both halves of the program:
 * `Array.filter` / `Vec::retain`, `Array.find` / `Iterator::position`,
 * `Vec::remove`, and the subsequence relation that ties a filtered list to
 * its source.
 */
module Seqs {
  import opened Base

  /** Concatenation is associative. */
  lemma Assoc<T>(x: seq<T>, y: seq<T>, z: seq<T>)
    ensures x + (y + z) == (x + y) + z
  {
  }

  /** The head and tail of a concatenation whose left part is non-empty. */
  lemma HeadTail<T>(x: seq<T>, y: seq<T>)
    requires x != []
    ensures (x + y)[0] == x[0] && (x + y)[1..] == x[1..] + y
  {
  }

  /** A non-empty sequence is its head followed by its tail. */
  lemma Cons<T>(x: seq<T>)
    requires x != []
    ensures x == [x[0]] + x[1..]
  {
  }

  /** A prefix of a suffix is a slice. */
  lemma SliceOfSuffix<T>(s: seq<T>, i: nat, n: nat)
    requires i + n <= |s|
    ensures s[i..][..n] == s[i..i + n]
    ensures forall k :: 0 <= k < |s| - i ==> s[i..][k] == s[i + k]
  {
  }

  lemma PrefixIndex<T>(s: seq<T>, n: nat, k: nat)
    requires k < n <= |s|
    ensures s[..n][k] == s[k]
  {
  }

  /** The suffix from `i` starts with `s[i]`, followed by the suffix from `i + 1`. */
  lemma SuffixCons<T>(s: seq<T>, i: nat)
    requires i < |s|
    ensures s[i..] != [] && s[i..][0] == s[i] && s[i..][1..] == s[i + 1..]
  {
  }

  /** The prefix up to `i + 1` is the prefix up to `i` followed by `s[i]`. */
  lemma PrefixSnoc<T>(s: seq<T>, i: nat)
    requires i < |s|
    ensures s[..i + 1] == s[..i] + [s[i]]
  {
  }

  /** Replacing position `i` is splicing the new element between the prefix and the rest. */
  lemma Splice<T>(s: seq<T>, i: nat, x: T)
    requires i < |s|
    ensures s[..i] + ([x] + s[i + 1..]) == s[i := x]
  {
  }

  /** A sequence is the part before `i`, then `s[i]`, then the part after. */
  lemma Around<T>(s: seq<T>, i: nat)
    requires i < |s|
    ensures s == s[..i] + ([s[i]] + s[i + 1..])
  {
  }

  /** The empty prefix, the whole suffix and the whole prefix. */
  lemma WholeSlices<T>(s: seq<T>)
    ensures s[..0] == [] && s[0..] == s && s[..|s|] == s && s[|s|..] == []
    ensures forall x: seq<T> :: [] + x == x && x + [] == x
  {
  }

  /** A prefix of a prefix is a prefix. */
  lemma PrefixOfPrefix<T>(s: seq<T>, m: nat, n: nat)
    requires n <= m <= |s|
    ensures s[..m][..n] == s[..n]
  {
  }

  /** A sequence is its prefix followed by the rest. */
  lemma PrefixSuffix<T>(s: seq<T>, i: nat)
    requires i <= |s|
    ensures s == s[..i] + s[i..]
    ensures multiset(s) == multiset(s[..i]) + multiset(s[i..])
  {
  }

  /** Taking out position `i` takes one `s[i]` out of the multiset. */
  lemma MultisetAround<T>(s: seq<T>, i: nat)
    requires i < |s|
    ensures s == s[..i] + ([s[i]] + s[i + 1..])
    ensures multiset(s) == multiset(s[..i] + s[i + 1..]) + multiset{s[i]}
  {
    Around(s, i);
    assert multiset(s) == multiset(s[..i]) + multiset{s[i]} + multiset(s[i + 1..]);
  }

  lemma MultisetCancel<T>(a: multiset<T>, b: multiset<T>, x: T)
    requires a + multiset{x} == b + multiset{x}
    ensures a == b
  {
    forall y ensures a[y] == b[y] {
      assert (a + multiset{x})[y] == (b + multiset{x})[y];
    }
  }

  /**
   * The head of `r` sits somewhere in a permutation `s` of `r`; the tail of
   * `r` is a permutation of `s` without that position.
   */
  lemma PermutationSplit<T>(r: seq<T>, s: seq<T>) returns (i: nat)
    requires multiset(r) == multiset(s) && r != []
    ensures i < |s| && s[i] == r[0]
    ensures s == s[..i] + ([s[i]] + s[i + 1..])
    ensures multiset(r[1..]) == multiset(s[..i] + s[i + 1..])
  {
    Cons(r);
    assert multiset(r) == multiset(r[1..]) + multiset{r[0]};
    assert r[0] in multiset(s);
    i :| 0 <= i < |s| && s[i] == r[0];
    MultisetAround(s, i);
    MultisetCancel(multiset(r[1..]), multiset(s[..i] + s[i + 1..]), r[0]);
  }

  /** `iter().map(f).collect()`. */
  function Map<A, B>(s: seq<A>, f: A -> B): (r: seq<B>)
    ensures |r| == |s| && forall k :: 0 <= k < |s| ==> r[k] == f(s[k])
  {
    seq(|s|, k requires 0 <= k < |s| => f(s[k]))
  }

  lemma MapAppend<A, B>(a: seq<A>, b: seq<A>, f: A -> B)
    ensures Map(a + b, f) == Map(a, f) + Map(b, f)
  {
  }

  /** Mapping a permutation gives a permutation. */
  lemma {:induction false} MapPermutation<A, B>(r: seq<A>, s: seq<A>, f: A -> B)
    requires multiset(r) == multiset(s)
    ensures multiset(Map(r, f)) == multiset(Map(s, f))
    decreases |r|
  {
    if r == [] {
      assert |s| == |multiset(s)| == 0;
    } else {
      var i := PermutationSplit(r, s);
      MapPermutation(r[1..], s[..i] + s[i + 1..], f);
      Cons(r);
      MapAppend([r[0]], r[1..], f);
      MapAppend(s[..i], [s[i]] + s[i + 1..], f);
      MapAppend([s[i]], s[i + 1..], f);
      MapAppend(s[..i], s[i + 1..], f);
    }
  }

  /** No element occurs twice. */
  predicate Distinct<T(==)>(s: seq<T>) {
    forall a, b :: 0 <= a < b < |s| ==> s[a] != s[b]
  }

  /** The elements of `s`. */
  function Elems<T(!new)>(s: seq<T>): (r: set<T>)
    ensures forall x :: x in r <==> x in s
  {
    set x | x in s
  }

  /** An element at two positions is counted twice. */
  lemma CountedTwice<T>(s: seq<T>, a: nat, b: nat)
    requires a < b < |s| && s[a] == s[b]
    ensures multiset(s)[s[a]] >= 2
  {
    PrefixSuffix(s, b);
    assert s[a] in s[..b];
    assert s[b..][0] == s[b];
  }

  /** A sequence holding each element of a set once has no repeats. */
  lemma DistinctOfSet<T>(s: seq<T>, S: set<T>)
    requires multiset(s) == multiset(S)
    ensures Distinct(s)
  {
    forall a, b | 0 <= a < b < |s| ensures s[a] != s[b] {
      if s[a] == s[b] {
        CountedTwice(s, a, b);
      }
    }
  }

  /** The elements of a suffix are its first element and those of the next suffix. */
  lemma ElemsSuffix<T(!new)>(s: seq<T>, i: nat)
    requires i < |s| && Distinct(s)
    ensures Elems(s[i..]) == Elems(s[i + 1..]) + {s[i]}
    ensures s[i] !in Elems(s[i + 1..])
  {
    SuffixCons(s, i);
  }

  /** The elements that satisfy `p`, in their original order. */
  function Filter<T>(s: seq<T>, p: T -> bool): (r: seq<T>)
    ensures |r| <= |s|
  {
    if s == [] then [] else (if p(s[0]) then [s[0]] else []) + Filter(s[1..], p)
  }

  /** Everything a filter keeps satisfies `p` and comes from the input. */
  lemma {:induction false} FilterKept<T>(s: seq<T>, p: T -> bool)
    ensures forall k :: 0 <= k < |Filter(s, p)| ==> p(Filter(s, p)[k]) && Filter(s, p)[k] in s
  {
    if s != [] {
      FilterKept(s[1..], p);
      var rest := Filter(s[1..], p);
      forall k | 0 <= k < |rest| ensures rest[k] in s {
        var j :| 0 <= j < |s[1..]| && s[1..][j] == rest[k];
        assert s[j + 1] == rest[k];
      }
    }
  }

  /** A filter keeps every element that satisfies `p`. */
  lemma {:induction false} FilterKeepsSatisfying<T>(s: seq<T>, p: T -> bool)
    ensures forall k :: 0 <= k < |s| && p(s[k]) ==> s[k] in Filter(s, p)
  {
    if s != [] {
      FilterKeepsSatisfying(s[1..], p);
      forall k | 1 <= k < |s| ensures s[k] == s[1..][k - 1] {
      }
    }
  }

  /** A filter keeps exactly the elements that satisfy `p`. */
  lemma FilterMembers<T>(s: seq<T>, p: T -> bool)
    ensures forall k :: 0 <= k < |Filter(s, p)| ==> p(Filter(s, p)[k]) && Filter(s, p)[k] in s
    ensures forall k :: 0 <= k < |s| && p(s[k]) ==> s[k] in Filter(s, p)
  {
    FilterKept(s, p);
    FilterKeepsSatisfying(s, p);
  }

  /** A filter keeps every occurrence of each element satisfying `p` and none of the others. */
  lemma {:induction false} FilterMultiset<T>(s: seq<T>, p: T -> bool)
    ensures forall x :: multiset(Filter(s, p))[x] == if p(x) then multiset(s)[x] else 0
  {
    if s != [] {
      FilterMultiset(s[1..], p);
      assert s == [s[0]] + s[1..];
      assert multiset(s) == multiset([s[0]]) + multiset(s[1..]);
      assert Filter(s, p) == (if p(s[0]) then [s[0]] else []) + Filter(s[1..], p);
    }
  }

  /** Filtering distributes over concatenation. */
  lemma {:induction false} FilterAppend<T>(a: seq<T>, b: seq<T>, p: T -> bool)
    ensures Filter(a + b, p) == Filter(a, p) + Filter(b, p)
  {
    if a != [] {
      FilterAppend(a[1..], b, p);
      assert (a + b)[1..] == a[1..] + b;
      assert (a + b)[0] == a[0];
      var head := if p(a[0]) then [a[0]] else [];
      assert Filter(a + b, p) == head + (Filter(a[1..], p) + Filter(b, p));
      assert Filter(a, p) == head + Filter(a[1..], p);
    } else {
      assert a + b == b;
    }
  }

  /** A filter that keeps every element is the identity. */
  lemma {:induction false} FilterKeepsAll<T>(s: seq<T>, p: T -> bool)
    requires forall k :: 0 <= k < |s| ==> p(s[k])
    ensures Filter(s, p) == s
  {
    if s != [] {
      FilterKeepsAll(s[1..], p);
    }
  }

  /** `idx` lists, in increasing order, the positions of `b` at which the elements of `a` are found. */
  ghost predicate SubseqAt<T>(a: seq<T>, b: seq<T>, idx: seq<nat>) {
    |idx| == |a|
    && (forall k :: 0 <= k < |idx| ==> idx[k] < |b| && a[k] == b[idx[k]])
    && (forall k, l :: 0 <= k < l < |idx| ==> idx[k] < idx[l])
  }

  /** `a` is `b` with some elements left out and the rest in the same order. */
  ghost predicate IsSubsequence<T>(a: seq<T>, b: seq<T>) {
    exists idx :: SubseqAt(a, b, idx)
  }

  function Range(lo: nat, hi: nat): (r: seq<nat>)
    requires lo <= hi
    ensures |r| == hi - lo
    ensures forall k :: 0 <= k < |r| ==> r[k] == lo + k
    decreases hi - lo
  {
    if lo == hi then [] else [lo] + Range(lo + 1, hi)
  }

  /** Every sequence is a subsequence of itself. */
  lemma SubsequenceRefl<T>(s: seq<T>)
    ensures IsSubsequence(s, s)
  {
    assert SubseqAt(s, s, Range(0, |s|));
  }

  /** Leaving out position `i` keeps the indices of the remaining elements. */
  lemma SubseqRemoveAt<T>(a: seq<T>, b: seq<T>, idx: seq<nat>, i: nat)
    requires SubseqAt(a, b, idx) && i < |a|
    ensures SubseqAt(RemoveAt(a, i), b, RemoveAt(idx, i))
  {
    var a', idx' := RemoveAt(a, i), RemoveAt(idx, i);
    forall k | 0 <= k < |idx'| ensures idx'[k] < |b| && a'[k] == b[idx'[k]] {
      if k < i { assert idx'[k] == idx[k] && a'[k] == a[k]; }
      else { assert idx'[k] == idx[k + 1] && a'[k] == a[k + 1]; }
    }
    forall k, l | 0 <= k < l < |idx'| ensures idx'[k] < idx'[l] {
      var k0 := if k < i then k else k + 1;
      var l0 := if l < i then l else l + 1;
      assert idx'[k] == idx[k0] && idx'[l] == idx[l0];
    }
  }

  function Shift(idx: seq<nat>): (r: seq<nat>)
    ensures |r| == |idx| && forall k :: 0 <= k < |idx| ==> r[k] == idx[k] + 1
  {
    seq(|idx|, k requires 0 <= k < |idx| => idx[k] + 1)
  }

  /** Putting `x` in front of `t` shifts the positions; `x` itself may be kept or left out. */
  lemma SubseqShift<T>(a: seq<T>, x: T, t: seq<T>, idx: seq<nat>)
    requires SubseqAt(a, t, idx)
    ensures SubseqAt(a, [x] + t, Shift(idx))
    ensures SubseqAt([x] + a, [x] + t, [0] + Shift(idx))
  {
    var b, sh := [x] + t, Shift(idx);
    forall k | 0 <= k < |sh| ensures sh[k] < |b| && a[k] == b[sh[k]] {
      assert b[sh[k]] == t[idx[k]];
    }
    var a2, sh2 := [x] + a, [0] + sh;
    forall k | 0 <= k < |sh2| ensures sh2[k] < |b| && a2[k] == b[sh2[k]] {
      if k > 0 { assert sh2[k] == sh[k - 1] && a2[k] == a[k - 1]; }
    }
    forall k, l | 0 <= k < l < |sh2| ensures sh2[k] < sh2[l] {
      if k > 0 { assert sh2[k] == sh[k - 1]; }
      assert sh2[l] == sh[l - 1];
    }
  }

  /** The elements a filter keeps form a subsequence of its input. */
  lemma {:induction false} FilterIsSubsequence<T>(s: seq<T>, p: T -> bool)
    ensures IsSubsequence(Filter(s, p), s)
  {
    if s == [] {
      assert SubseqAt([], s, []);
    } else {
      FilterIsSubsequence(s[1..], p);
      var rest := Filter(s[1..], p);
      var idx :| SubseqAt(rest, s[1..], idx);
      SubseqShift(rest, s[0], s[1..], idx);
      assert [s[0]] + s[1..] == s;
      var shifted := Shift(idx);
      if p(s[0]) {
        assert Filter(s, p) == [s[0]] + rest;
        assert SubseqAt([s[0]] + rest, s, [0] + shifted);
      } else {
        assert Filter(s, p) == rest;
        assert SubseqAt(rest, s, shifted);
      }
    }
  }

  /** `Vec::remove(i)`: the sequence without position `i`. */
  function RemoveAt<T>(s: seq<T>, i: nat): (r: seq<T>)
    requires i < |s|
    ensures |r| == |s| - 1
    ensures forall k :: 0 <= k < i ==> r[k] == s[k]
    ensures forall k :: i <= k < |r| ==> r[k] == s[k + 1]
  {
    s[..i] + s[i + 1..]
  }

  /** The position of the first element satisfying `p` (`Iterator::position`). */
  function FirstIndex<T>(s: seq<T>, p: T -> bool): (r: Option<nat>)
    ensures r.Some? ==> r.value < |s| && p(s[r.value])
    ensures r.Some? ==> forall k :: 0 <= k < r.value ==> !p(s[k])
    ensures r.None? ==> forall k :: 0 <= k < |s| ==> !p(s[k])
  {
    if s == [] then None
    else if p(s[0]) then Some(0)
    else match FirstIndex(s[1..], p)
      case None => None
      case Some(i) => Some(i + 1)
  }
}

/**
 * Orderings used by the sorts in the back-end: `Ord for str` (lexicographic
 * by code point, which is also the order of the UTF-8 bytes) and an in-place
 * sort by a caller-supplied "less or equal" that is total and transitive on
 * the elements being sorted.
 */
module Order {

  /** `a <= b` in the order of Rust strings. */
  predicate LexLe(a: string, b: string)
    decreases |a|
  {
    a == [] || (b != [] && (a[0] < b[0] || (a[0] == b[0] && LexLe(a[1..], b[1..]))))
  }

  /** Any two strings are ordered one way or the other. */
  lemma {:induction false} LexLeTotal(a: string, b: string)
    ensures LexLe(a, b) || LexLe(b, a)
    decreases |a|
  {
    if a != [] && b != [] && a[0] == b[0] {
      LexLeTotal(a[1..], b[1..]);
    }
  }

  /** Strings ordered both ways are equal. */
  lemma {:induction false} LexLeAntisymmetric(a: string, b: string)
    requires LexLe(a, b) && LexLe(b, a)
    ensures a == b
    decreases |a|
  {
    if a != [] {
      LexLeAntisymmetric(a[1..], b[1..]);
      assert a == [a[0]] + a[1..] && b == [b[0]] + b[1..];
    }
  }

  lemma {:induction false} LexLeTransitive(a: string, b: string, c: string)
    requires LexLe(a, b) && LexLe(b, c)
    ensures LexLe(a, c)
    decreases |a|
  {
    if a != [] && a[0] == b[0] && b[0] == c[0] {
      LexLeTransitive(a[1..], b[1..], c[1..]);
    }
  }

  /** A prefix comes first. */
  lemma {:induction false} LexLePrefix(a: string, b: string)
    requires a <= b
    ensures LexLe(a, b)
    decreases |a|
  {
    if a != [] {
      assert a[0] == b[0];
      LexLePrefix(a[1..], b[1..]);
    }
  }

  /** `le` is total on the elements of `s`. */
  ghost predicate TotalOn<T>(s: seq<T>, le: (T, T) -> bool) {
    forall a, b :: a in s && b in s ==> le(a, b) || le(b, a)
  }

  /** `le` is transitive on the elements of `s`. */
  ghost predicate TransitiveOn<T>(s: seq<T>, le: (T, T) -> bool) {
    forall a, b, c :: a in s && b in s && c in s && le(a, b) && le(b, c) ==> le(a, c)
  }

  /** Every earlier element is `le` every later one. */
  ghost predicate SortedBy<T>(s: seq<T>, le: (T, T) -> bool) {
    forall i, j :: 0 <= i < j < |s| ==> le(s[i], s[j])
  }

  lemma InPermutation<T>(x: T, r: seq<T>, s: seq<T>)
    requires multiset(r) == multiset(s) && x in r
    ensures x in s
  {
    assert x in multiset(r);
  }

  /**
   * The state of one insertion pass: the first `i + 1` elements are sorted
   * except that the element at `j`, being moved left, is only known to be
   * `le` the ones after it.
   */
  ghost predicate Sinking<T>(r: seq<T>, le: (T, T) -> bool, i: nat, j: nat) {
    j <= i < |r|
    && (forall k, l :: 0 <= k < l <= i && k != j && l != j ==> le(r[k], r[l]))
    && (forall l :: j < l <= i ==> le(r[j], r[l]))
  }

  /** Swapping the moving element with a strictly greater left neighbour keeps the pass state. */
  lemma SwapStep<T>(r: seq<T>, s: seq<T>, le: (T, T) -> bool, i: nat, j: nat)
    requires TotalOn(s, le) && TransitiveOn(s, le) && multiset(r) == multiset(s)
    requires Sinking(r, le, i, j) && 0 < j && !le(r[j - 1], r[j])
    ensures multiset(r[j - 1 := r[j]][j := r[j - 1]]) == multiset(s)
    ensures Sinking(r[j - 1 := r[j]][j := r[j - 1]], le, i, j - 1)
  {
    InPermutation(r[j - 1], r, s);
    InPermutation(r[j], r, s);
  }

  /** When the moving element has stopped, the first `i + 1` elements are sorted. */
  lemma PassDone<T>(r: seq<T>, s: seq<T>, le: (T, T) -> bool, i: nat, j: nat)
    requires TotalOn(s, le) && TransitiveOn(s, le) && multiset(r) == multiset(s)
    requires Sinking(r, le, i, j) && (j == 0 || le(r[j - 1], r[j]))
    ensures SortedBy(r[..i + 1], le)
  {
    forall k, l | 0 <= k < l <= i ensures le(r[k], r[l]) {
      if l == j && k < j - 1 {
        InPermutation(r[k], r, s);
        InPermutation(r[j - 1], r, s);
        InPermutation(r[j], r, s);
      }
    }
  }

  /**
   * `slice::sort_by`: rearranges `s` so that it is sorted by `le`. Elements
   * are moved left past strictly greater ones only, as in a stable sort.
   */
  method SortBy<T>(s: seq<T>, le: (T, T) -> bool) returns (r: seq<T>)
    requires TotalOn(s, le) && TransitiveOn(s, le)
    ensures multiset(r) == multiset(s)
    ensures SortedBy(r, le)
  {
    r := s;
    var i := 0;
    while i < |r|
      invariant 0 <= i <= |r| == |s|
      invariant multiset(r) == multiset(s)
      invariant SortedBy(r[..i], le)
    {
      var j := i;
      while j > 0 && !le(r[j - 1], r[j])
        invariant |r| == |s| && multiset(r) == multiset(s)
        invariant Sinking(r, le, i, j)
      {
        SwapStep(r, s, le, i, j);
        r := r[j - 1 := r[j]][j := r[j - 1]];
        j := j - 1;
      }
      PassDone(r, s, le, i, j);
      i := i + 1;
    }
    assert r[..i] == r;
  }
}

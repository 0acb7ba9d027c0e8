/**
 * The duplicate removal shared by the back-end's record lists: a pass with
 * two indices over the list that, for every pair of duplicates, removes the
 * record with the strictly earlier timestamp, or the later one of the two
 * on a tie.
 */
module Dedup {
  import Seqs

  /** No two records of `s` are duplicates (in list order). */
  ghost predicate NoDuplicates<T>(s: seq<T>, dup: (T, T) -> bool) {
    forall k, l :: 0 <= k < l < |s| ==> !dup(s[k], s[l])
  }

  /**
   * One removal: `victim` was dropped because of the duplicate `survivor`.
   * The victim never has the later timestamp, and when it stood before the
   * survivor its timestamp was strictly earlier.
   */
  datatype Removal<T> = Removal(victim: T, survivor: T, victimFirst: bool)

  ghost predicate Justified<T>(r: Removal<T>, dup: (T, T) -> bool, stamp: T -> int) {
    && (if r.victimFirst then dup(r.victim, r.survivor) else dup(r.survivor, r.victim))
    && stamp(r.victim) <= stamp(r.survivor)
    && (r.victimFirst ==> stamp(r.victim) < stamp(r.survivor))
  }

  ghost function Victims<T>(log: seq<Removal<T>>): multiset<T> {
    if log == [] then multiset{} else Victims(log[..|log| - 1]) + multiset{log[|log| - 1].victim}
  }

  /** The pass state inside the inner loop: everything before `i` is settled, and `i` is settled up to `j`. */
  ghost predicate Settled<T>(r: seq<T>, dup: (T, T) -> bool, i: nat, j: nat) {
    i < j <= |r|
    && (forall k, l :: 0 <= k < i && k < l < |r| ==> !dup(r[k], r[l]))
    && (forall l :: i < l < j ==> !dup(r[i], r[l]))
  }

  /** Removing a record keeps the settled part settled. */
  lemma SettledRemove<T>(r: seq<T>, dup: (T, T) -> bool, i: nat, j: nat, x: nat)
    requires Settled(r, dup, i, j) && i <= x < |r| && (x == i || x >= j)
    ensures x == i ==> i + 1 <= |Seqs.RemoveAt(r, x)| ==> Settled(Seqs.RemoveAt(r, x), dup, i, i + 1)
    ensures x >= j ==> Settled(Seqs.RemoveAt(r, x), dup, i, j)
  {
    var r' := Seqs.RemoveAt(r, x);
    forall k, l | 0 <= k < i && k < l < |r'| ensures !dup(r'[k], r'[l]) {
      assert r'[k] == r[k];
      assert r'[l] == r[if l < x then l else l + 1];
    }
  }

  lemma SettledNext<T>(r: seq<T>, dup: (T, T) -> bool, i: nat, j: nat)
    requires Settled(r, dup, i, j) && j < |r| && !dup(r[i], r[j])
    ensures Settled(r, dup, i, j + 1)
  {
  }

  /** When `i` has been compared with every later record, everything up to `i` is settled. */
  lemma SettledDone<T>(r: seq<T>, dup: (T, T) -> bool, i: nat)
    requires Settled(r, dup, i, |r|)
    ensures forall k, l :: 0 <= k < i + 1 && k < l < |r| ==> !dup(r[k], r[l])
  {
  }

  /** What the pass keeps track of: the list is a subsequence of the input, and every record gone is logged with its reason. */
  ghost predicate Tracked<T>(s: seq<T>, r: seq<T>, idx: seq<nat>, log: seq<Removal<T>>, dup: (T, T) -> bool, stamp: T -> int) {
    Seqs.SubseqAt(r, s, idx)
    && multiset(s) == multiset(r) + Victims(log)
    && forall k :: 0 <= k < |log| ==> Justified(log[k], dup, stamp)
  }

  /** `Vec::remove(x)` of a record that duplicates the one at `y`, with its log entry. */
  method Drop<T>(s: seq<T>, r: seq<T>, ghost idx: seq<nat>, ghost log: seq<Removal<T>>, x: nat, y: nat,
                 ghost dup: (T, T) -> bool, ghost stamp: T -> int)
    returns (r': seq<T>, ghost idx': seq<nat>, ghost log': seq<Removal<T>>)
    requires Tracked(s, r, idx, log, dup, stamp)
    requires x < |r| && y < |r| && x != y && Justified(Removal(r[x], r[y], x < y), dup, stamp)
    ensures Tracked(s, r', idx', log', dup, stamp) && r' == Seqs.RemoveAt(r, x)
  {
    var e := Removal(r[x], r[y], x < y);
    Seqs.MultisetAround(r, x);
    assert (log + [e])[..|log|] == log;
    Seqs.SubseqRemoveAt(r, s, idx, x);
    r', idx', log' := Seqs.RemoveAt(r, x), Seqs.RemoveAt(idx, x), log + [e];
  }

  /**
   * `remove_duplicates`: for each `i`, compares the record at `i` with every
   * later one; of a duplicate pair, removes the one at `i` if its timestamp
   * is strictly earlier (and restarts the comparison of the new record at
   * `i`), otherwise the one at `j`.
   */
  method RemoveDuplicates<T>(s: seq<T>, dup: (T, T) -> bool, stamp: T -> int)
    returns (r: seq<T>, ghost log: seq<Removal<T>>)
    ensures Seqs.IsSubsequence(r, s)
    ensures NoDuplicates(r, dup)
    ensures multiset(s) == multiset(r) + Victims(log)
    ensures forall k :: 0 <= k < |log| ==> Justified(log[k], dup, stamp)
  {
    r, log := s, [];
    ghost var idx := Seqs.Range(0, |s|);
    assert Seqs.SubseqAt(r, s, idx);
    var i := 0;
    while i < |r|
      invariant i <= |r|
      invariant Tracked(s, r, idx, log, dup, stamp)
      invariant forall k, l :: 0 <= k < i && k < l < |r| ==> !dup(r[k], r[l])
      decreases |r| - i
    {
      var j := i + 1;
      while j < |r|
        invariant i < |r| && Settled(r, dup, i, j)
        invariant Tracked(s, r, idx, log, dup, stamp)
        decreases |r|, |r| - j
      {
        if dup(r[i], r[j]) {
          if stamp(r[i]) < stamp(r[j]) {
            SettledRemove(r, dup, i, j, i);
            r, idx, log := Drop(s, r, idx, log, i, j, dup, stamp);
            j := i + 1;
            continue;
          } else {
            SettledRemove(r, dup, i, j, j);
            r, idx, log := Drop(s, r, idx, log, j, i, dup, stamp);
            continue;
          }
        }
        SettledNext(r, dup, i, j);
        j := j + 1;
      }
      SettledDone(r, dup, i);
      i := i + 1;
    }
  }
}

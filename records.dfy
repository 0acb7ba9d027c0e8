/**
 * The list idioms the back-end applies to its record lists (apps, libs,
 * tools, links): `iter().any`, the registry merge, `iter_mut().find` with an
 * assignment, `position` followed by a mark or a `remove`, and `retain`
 * followed by `push`.
 */
module Records {
  import Seqs
  import opened Base

  /** `iter().any(p)`. */
  function Any<T>(s: seq<T>, p: T -> bool): (r: bool)
    ensures r <==> exists i :: 0 <= i < |s| && p(s[i])
  {
    if s == [] then false else p(s[0]) || Any(s[1..], p)
  }

  /** The record `reg` is already represented in `s`. */
  function Present<T, R>(s: seq<T>, reg: R, present: (T, R) -> bool): bool {
    Any(s, (a: T) => present(a, reg))
  }

  /**
   * The list after merging registry records one by one: a record that is not
   * present yet is pushed as `make(reg)`.
   */
  function Synced<T, R>(s: seq<T>, regs: seq<R>, present: (T, R) -> bool, make: R -> T): seq<T> {
    if regs == [] then s
    else
      var prev := Synced(s, regs[..|regs| - 1], present, make);
      var reg := regs[|regs| - 1];
      if Present(prev, reg, present) then prev else prev + [make(reg)]
  }

  lemma PresentGrows<T, R>(s: seq<T>, more: seq<T>, reg: R, present: (T, R) -> bool)
    requires Present(s, reg, present)
    ensures Present(s + more, reg, present)
  {
    var i :| 0 <= i < |s| && present(s[i], reg);
    assert (s + more)[i] == s[i];
  }

  /**
   * The merge only appends, every appended record is made from a registry
   * record, and when a made record always represents its source, afterwards
   * every registry record is present.
   */
  lemma {:induction false} SyncedSpec<T, R>(s: seq<T>, regs: seq<R>, present: (T, R) -> bool, make: R -> T)
    ensures var r := Synced(s, regs, present, make);
      && s <= r
      && (forall k :: |s| <= k < |r| ==> exists j :: 0 <= j < |regs| && r[k] == make(regs[j]))
      && ((forall x :: present(make(x), x)) ==> forall j :: 0 <= j < |regs| ==> Present(r, regs[j], present))
    decreases |regs|
  {
    if regs != [] {
      var init := regs[..|regs| - 1];
      SyncedSpec(s, init, present, make);
      var prev := Synced(s, init, present, make);
      var reg := regs[|regs| - 1];
      var r := Synced(s, regs, present, make);
      forall k | |s| <= k < |r| ensures exists j :: 0 <= j < |regs| && r[k] == make(regs[j]) {
        if k < |prev| {
          var j :| 0 <= j < |init| && prev[k] == make(init[j]);
          assert regs[j] == init[j];
        } else {
          assert r[k] == make(regs[|regs| - 1]);
        }
      }
      if forall x :: present(make(x), x) {
        forall j | 0 <= j < |regs| ensures Present(r, regs[j], present) {
          if j < |regs| - 1 {
            assert regs[j] == init[j];
            PresentGrows(prev, r[|prev|..], regs[j], present);
            assert prev + r[|prev|..] == r;
          } else if !Present(prev, reg, present) {
            assert r[|prev|] == make(reg);
          }
        }
      }
    }
  }

  /** Registry records that are all present already add nothing. */
  lemma {:induction false} SyncedNothingNew<T, R>(s: seq<T>, regs: seq<R>, present: (T, R) -> bool, make: R -> T)
    requires forall j :: 0 <= j < |regs| ==> Present(s, regs[j], present)
    ensures Synced(s, regs, present, make) == s
    decreases |regs|
  {
    if regs != [] {
      SyncedNothingNew(s, regs[..|regs| - 1], present, make);
    }
  }

  /** When made records represent their source, merging the same registry records again changes nothing. */
  lemma SyncedIdempotent<T, R>(s: seq<T>, regs: seq<R>, present: (T, R) -> bool, make: R -> T, make': R -> T)
    requires forall x :: present(make(x), x)
    ensures Synced(Synced(s, regs, present, make), regs, present, make') == Synced(s, regs, present, make)
  {
    SyncedSpec(s, regs, present, make);
    SyncedNothingNew(Synced(s, regs, present, make), regs, present, make');
  }

  /** The record at `i` is the first one satisfying `p`. */
  ghost predicate FirstAt<T>(s: seq<T>, p: T -> bool, i: int) {
    0 <= i < |s| && p(s[i]) && forall k :: 0 <= k < i ==> !p(s[k])
  }

  /** `if let Some(x) = s.iter_mut().find(p) { *x = f(x) }`. */
  function UpdateFirst<T>(s: seq<T>, p: T -> bool, f: T -> T): seq<T> {
    match Seqs.FirstIndex(s, p)
    case None => s
    case Some(i) => s[i := f(s[i])]
  }

  /**
   * Only the first record satisfying `p` is changed, to `f` of itself; with
   * no such record the list is unchanged.
   */
  lemma UpdateFirstSpec<T>(s: seq<T>, p: T -> bool, f: T -> T)
    ensures var r := UpdateFirst(s, p, f);
      && |r| == |s|
      && (forall k :: 0 <= k < |s| ==> r[k] == if FirstAt(s, p, k) then f(s[k]) else s[k])
      && ((forall k :: 0 <= k < |s| ==> !p(s[k])) ==> r == s)
  {
  }

  /**
   * The record at `position(p)` is kept but marked when `keep` holds of it,
   * and removed otherwise; with no such record the list is unchanged.
   */
  function Retire<T>(s: seq<T>, p: T -> bool, keep: T -> bool, mark: T -> T): seq<T> {
    match Seqs.FirstIndex(s, p)
    case None => s
    case Some(i) => if keep(s[i]) then s[i := mark(s[i])] else Seqs.RemoveAt(s, i)
  }

  /**
   * With no record satisfying `p` nothing changes. Otherwise exactly the
   * first such record is affected: when `keep` holds it is replaced by its
   * marked form in place, and otherwise it is removed and every other record
   * keeps its value and order.
   */
  lemma RetireSpec<T>(s: seq<T>, p: T -> bool, keep: T -> bool, mark: T -> T)
    ensures (forall k :: 0 <= k < |s| ==> !p(s[k])) ==> Retire(s, p, keep, mark) == s
    ensures forall i :: FirstAt(s, p, i) && keep(s[i]) ==>
      Retire(s, p, keep, mark) == s[i := mark(s[i])]
    ensures forall i :: FirstAt(s, p, i) && !keep(s[i]) ==>
      Retire(s, p, keep, mark) == s[..i] + s[i + 1..]
  {
    match Seqs.FirstIndex(s, p)
    case None =>
    case Some(i) =>
      forall i' | FirstAt(s, p, i') ensures i' == i {
      }
  }

  /** `s.retain(keep); s.push(x)`. */
  function Replaced<T>(s: seq<T>, keep: T -> bool, x: T): seq<T> {
    Seqs.Filter(s, keep) + [x]
  }

  /**
   * The new record comes last; before it stand exactly the old records
   * satisfying `keep`, each as often as before, in their old order.
   */
  lemma ReplacedSpec<T>(s: seq<T>, keep: T -> bool, x: T)
    ensures var r := Replaced(s, keep, x);
      && |r| >= 1 && r[|r| - 1] == x
      && Seqs.IsSubsequence(r[..|r| - 1], s)
      && (forall e :: e in r[..|r| - 1] <==> e in s && keep(e))
      && (forall e :: multiset(r[..|r| - 1])[e] == if keep(e) then multiset(s)[e] else 0)
  {
    var kept := Seqs.Filter(s, keep);
    var r := Replaced(s, keep, x);
    assert r[..|r| - 1] == kept;
    Seqs.FilterMultiset(s, keep);
    Seqs.FilterMembers(s, keep);
    Seqs.FilterIsSubsequence(s, keep);
    forall e | e in s && keep(e) ensures e in kept {
      var k :| 0 <= k < |s| && s[k] == e;
    }
  }
}

/** Sequence helpers shared by the list-rewriting code: `Array.prototype.filter` and keyed puts. */
module Seqs {

  /** `s.filter(p)` */
  function Filter<T(==)>(s: seq<T>, p: T -> bool): (r: seq<T>)
    ensures |r| <= |s|
    ensures forall i :: 0 <= i < |r| ==> r[i] in s && p(r[i])
    ensures forall i :: 0 <= i < |s| && p(s[i]) ==> s[i] in r
  {
    if s == [] then []
    else if p(s[0]) then [s[0]] + Filter(s[1..], p)
    else Filter(s[1..], p)
  }

  /** `a` is `b` with some elements left out, the rest in their original order. */
  predicate Subseq<T(==)>(a: seq<T>, b: seq<T>)
    decreases |b|
  {
    if a == [] then true
    else if b == [] then false
    else if a[0] == b[0] then Subseq(a[1..], b[1..])
    else Subseq(a, b[1..])
  }

  /** Filtering keeps the order of the elements it keeps. */
  lemma {:induction false} FilterIsSubseq<T>(s: seq<T>, p: T -> bool)
    ensures Subseq(Filter(s, p), s)
  {
    if s != [] {
      FilterIsSubseq(s[1..], p);
      if !p(s[0]) {
        SubseqSkip(Filter(s[1..], p), s[0], s[1..]);
      }
    }
  }

  lemma {:induction false} SubseqSkip<T>(a: seq<T>, x: T, b: seq<T>)
    requires Subseq(a, b)
    ensures Subseq(a, [x] + b)
    decreases |b| + 1, 0
  {
    if a != [] && a[0] == x {
      assert ([x] + b)[1..] == b;
      SubseqDrop(a, b);
    }
  }

  lemma {:induction false} SubseqDrop<T>(a: seq<T>, b: seq<T>)
    requires a != [] && Subseq(a, b)
    ensures Subseq(a[1..], b)
    decreases |b|, 1
  {
    if b != [] {
      if a[0] == b[0] {
        if a[1..] != [] {
          SubseqSkip(a[1..], b[0], b[1..]);
          assert [b[0]] + b[1..] == b;
        }
      } else {
        SubseqDrop(a, b[1..]);
        if a[1..] != [] {
          SubseqSkip(a[1..], b[0], b[1..]);
          assert [b[0]] + b[1..] == b;
        }
      }
    }
  }

  /** Filtering by `p` and by its negation splits the sequence: no element is lost or duplicated. */
  lemma {:induction false} FilterPartition<T>(s: seq<T>, p: T -> bool)
    ensures multiset(Filter(s, p)) + multiset(Filter(s, x => !p(x))) == multiset(s)
  {
    if s != [] {
      FilterPartition(s[1..], p);
      assert s == [s[0]] + s[1..];
    }
  }

  /** Filtering keeps everything when every element passes, and nothing when none does. */
  lemma {:induction false} FilterAllOrNone<T>(s: seq<T>, p: T -> bool)
    ensures (forall i :: 0 <= i < |s| ==> p(s[i])) ==> Filter(s, p) == s
    ensures (forall i :: 0 <= i < |s| ==> !p(s[i])) ==> Filter(s, p) == []
  {
    if s != [] {
      FilterAllOrNone(s[1..], p);
      assert forall i :: 1 <= i < |s| ==> s[1..][i - 1] == s[i];
    }
  }

  /**
   * The contents of a keyed store after putting the records of `s` in order into an empty
   * store: `for (const r of s) store.put(r)`.
   */
  function KeyedBy<T>(s: seq<T>, key: T -> int): map<int, T>
  {
    if s == [] then map[]
    else KeyedBy(s[..|s| - 1], key)[key(s[|s| - 1]) := s[|s| - 1]]
  }

  /** Exactly the keys of the given records are present. */
  lemma {:induction false} KeyedByKeys<T>(s: seq<T>, key: T -> int)
    ensures KeyedBy(s, key).Keys == set i | 0 <= i < |s| :: key(s[i])
  {
    if s != [] {
      var n := |s| - 1;
      KeyedByKeys(s[..n], key);
      assert forall i :: 0 <= i < n ==> s[..n][i] == s[i];
      assert (set i | 0 <= i < |s| :: key(s[i])) == (set i | 0 <= i < n :: key(s[..n][i])) + {key(s[n])};
    }
  }

  /** The record stored under a key is the last record of `s` with that key: later duplicates overwrite. */
  lemma {:induction false} KeyedByLastWins<T>(s: seq<T>, key: T -> int, i: int)
    requires 0 <= i < |s|
    requires forall j :: i < j < |s| ==> key(s[j]) != key(s[i])
    ensures key(s[i]) in KeyedBy(s, key) && KeyedBy(s, key)[key(s[i])] == s[i]
  {
    var n := |s| - 1;
    if i < n {
      assert forall j :: i < j < n ==> s[..n][j] == s[j];
      KeyedByLastWins(s[..n], key, i);
    }
  }

  /** Every stored record comes from `s` and is stored under its own key. */
  lemma {:induction false} KeyedBySelfKeyed<T>(s: seq<T>, key: T -> int)
    ensures forall k :: k in KeyedBy(s, key) ==> key(KeyedBy(s, key)[k]) == k
    ensures forall k :: k in KeyedBy(s, key) ==> KeyedBy(s, key)[k] in s
  {
    if s != [] {
      var n := |s| - 1;
      KeyedBySelfKeyed(s[..n], key);
      assert forall x :: x in s[..n] ==> x in s;
    }
  }
}

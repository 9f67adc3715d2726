/**
 * Orderings of records by a lexicographic key, used for every `ORDER BY` and sort of the
 * source. A record's key is a sequence of integers ending in its unique id, so two distinct
 * rows of one table never tie and each listing is determined uniquely.
 */
module Ordering {
  import opened Wrappers

  /** Lexicographic order on integer sequences; a proper prefix comes first. */
  predicate LexLess(a: seq<int>, b: seq<int>)
    decreases |a|
  {
    if |a| == 0 then |b| > 0
    else if |b| == 0 then false
    else a[0] < b[0] || (a[0] == b[0] && LexLess(a[1..], b[1..]))
  }

  lemma {:induction false} LexIrreflexive(a: seq<int>)
    ensures !LexLess(a, a)
  {
    if |a| > 0 {
      LexIrreflexive(a[1..]);
    }
  }

  lemma {:induction false} LexTransitive(a: seq<int>, b: seq<int>, c: seq<int>)
    requires LexLess(a, b) && LexLess(b, c)
    ensures LexLess(a, c)
    decreases |a|
  {
    if |a| > 0 && a[0] == b[0] && b[0] == c[0] {
      LexTransitive(a[1..], b[1..], c[1..]);
    }
  }

  lemma {:induction false} LexTotal(a: seq<int>, b: seq<int>)
    requires a != b
    ensures LexLess(a, b) || LexLess(b, a)
    decreases |a|
  {
    if |a| > 0 && |b| > 0 && a[0] == b[0] {
      assert a == [a[0]] + a[1..] && b == [b[0]] + b[1..];
      LexTotal(a[1..], b[1..]);
    }
  }

  lemma LexAsymmetric(a: seq<int>, b: seq<int>)
    requires LexLess(a, b)
    ensures !LexLess(b, a)
  {
    if LexLess(b, a) {
      LexTransitive(a, b, a);
      LexIrreflexive(a);
    }
  }

  /** Strictly increasing keys. */
  ghost predicate Ordered<T>(s: seq<T>, key: T -> seq<int>) {
    forall i, j :: 0 <= i < j < |s| ==> LexLess(key(s[i]), key(s[j]))
  }

  /** Insert `x` in front of the first element whose key is larger. */
  function Insert<T>(s: seq<T>, x: T, key: T -> seq<int>): (r: seq<T>)
    ensures |r| == |s| + 1
    ensures multiset(r) == multiset(s) + multiset{x}
  {
    if s == [] then [x]
    else if LexLess(key(x), key(s[0])) then [x] + s
    else assert s == [s[0]] + s[1..]; [s[0]] + Insert(s[1..], x, key)
  }

  lemma {:induction false} InsertOrdered<T>(s: seq<T>, x: T, key: T -> seq<int>)
    requires Ordered(s, key)
    requires forall i :: 0 <= i < |s| ==> key(s[i]) != key(x)
    ensures Ordered(Insert(s, x, key), key)
  {
    if s != [] && !LexLess(key(x), key(s[0])) {
      InsertOrdered(s[1..], x, key);
      var r := Insert(s, x, key);
      LexTotal(key(x), key(s[0]));
      forall j | 1 <= j < |r|
        ensures LexLess(key(s[0]), key(r[j]))
      {
        assert r[j] in multiset(Insert(s[1..], x, key));
        assert r[j] in multiset(s[1..]) + multiset{x};
        if r[j] != x {
          assert r[j] in s[1..];
        }
      }
    } else if s != [] {
      forall j | 1 <= j < |s| + 1
        ensures LexLess(key(x), key(([x] + s)[j]))
      {
        if j > 1 {
          LexTransitive(key(x), key(s[0]), key(s[j - 1]));
        }
      }
    }
  }

  lemma SameMembersSameEmptiness<T>(a: seq<T>, b: seq<T>)
    requires forall x :: x in a <==> x in b
    ensures a == [] <==> b == []
  {
    if a != [] {
      var w := a[0];
      assert w in a;
    }
    if b != [] {
      var w := b[0];
      assert w in b;
    }
  }

  /** Two ordered sequences with the same elements are equal: an ordered listing is unique. */
  lemma {:induction false} OrderedUnique<T>(a: seq<T>, b: seq<T>, key: T -> seq<int>)
    requires Ordered(a, key) && Ordered(b, key)
    requires forall x :: x in a <==> x in b
    ensures a == b
    decreases |a|
  {
    SameMembersSameEmptiness(a, b);
    if a != [] {
      if a[0] != b[0] {
        assert a[0] in b;
        var j :| 0 <= j < |b| && b[j] == a[0];
        assert b[0] in a;
        var i :| 0 <= i < |a| && a[i] == b[0];
        LexAsymmetric(key(b[0]), key(a[0]));
        assert false;
      }
      forall x
        ensures x in a[1..] <==> x in b[1..]
      {
        if x in a[1..] {
          var i :| 1 <= i < |a| && a[i] == x;
          LexIrreflexive(key(a[0]));
          assert x != a[0];
          assert x in b;
        }
        if x in b[1..] {
          var i :| 1 <= i < |b| && b[i] == x;
          LexIrreflexive(key(b[0]));
          assert x != b[0];
          assert x in a;
        }
      }
      OrderedUnique(a[1..], b[1..], key);
      assert a == [a[0]] + a[1..] && b == [b[0]] + b[1..];
    }
  }

  /** Distinct entries of `m` have distinct keys (true whenever the key ends in the row id). */
  ghost predicate KeysDistinct<T>(m: map<int, T>, key: T -> seq<int>) {
    forall a, b :: a in m && b in m && a != b ==> key(m[a]) != key(m[b])
  }

  /** Keys that end in the row's own key are distinct. */
  lemma KeyEndsInId<T>(m: map<int, T>, key: T -> seq<int>)
    requires forall k :: k in m ==> |key(m[k])| > 0 && key(m[k])[|key(m[k])| - 1] == k
    ensures KeysDistinct(m, key)
  {
  }

  /**
   * The rows of a table listed in key order, like `SELECT * ... ORDER BY <key>` or
   * `getAll()` followed by a sort.
   */
  method SortedValues<T(==)>(m: map<int, T>, key: T -> seq<int>) returns (r: seq<T>)
    requires KeysDistinct(m, key)
    ensures Ordered(r, key)
    ensures |r| == |m|
    ensures forall x :: x in r <==> x in m.Values
  {
    r := [];
    var todo := m.Keys;
    ghost var done: set<int> := {};
    while todo != {}
      invariant todo + done == m.Keys && todo !! done
      invariant Ordered(r, key)
      invariant |r| == |done|
      invariant forall x :: x in r <==> exists k :: k in done && m[k] == x
      decreases todo
    {
      var k := Pick(todo);
      forall i | 0 <= i < |r|
        ensures key(r[i]) != key(m[k])
      {
        assert r[i] in r;
        var k' :| k' in done && m[k'] == r[i];
      }
      InsertOrdered(r, m[k], key);
      ghost var old_r := r;
      r := Insert(r, m[k], key);
      InsertedFromKeys(old_r, r, m, done, k);
      todo := todo - {k};
      done := done + {k};
    }
    assert done == m.Keys;
    forall x
      ensures x in r <==> x in m.Values
    {
      if x in m.Values {
        ValueHasKey(m, x);
        var k0 :| k0 in m && m[k0] == x;
        assert k0 in done;
      }
    }
  }

  /** After inserting `m[k]`, a listing of the entries under `done` lists those under `done + {k}`. */
  lemma InsertedFromKeys<T>(before: seq<T>, after: seq<T>, m: map<int, T>, done: set<int>, k: int)
    requires k in m && done <= m.Keys
    requires multiset(after) == multiset(before) + multiset{m[k]}
    requires forall x :: x in before <==> exists k0 :: k0 in done && m[k0] == x
    ensures forall x :: x in after <==> exists k0 :: k0 in done + {k} && m[k0] == x
  {
    forall x
      ensures x in after <==> exists k0 :: k0 in done + {k} && m[k0] == x
    {
      assert x in after <==> x in multiset(before) + multiset{m[k]};
      if x in after {
        if x == m[k] {
          assert k in done + {k};
        } else {
          assert x in before;
          var k0 :| k0 in done && m[k0] == x;
          assert k0 in done + {k};
        }
      }
      if exists k0 :: k0 in done + {k} && m[k0] == x {
        var k0 :| k0 in done + {k} && m[k0] == x;
        if k0 != k {
          assert x in before;
        }
      }
    }
  }

  lemma EmptyIfNoMember(s: set<int>)
    requires forall x :: x !in s
    ensures s == {}
  {
    assert forall x :: x in s <==> x in {};
  }

  lemma NonEmptyHasMember(s: set<int>)
    requires s != {}
    ensures exists x :: x in s
  {
    if !exists x :: x in s {
      EmptyIfNoMember(s);
    }
  }

  lemma ValueHasKey<T>(m: map<int, T>, x: T)
    requires x in m.Values
    ensures exists k :: k in m && m[k] == x
  {
    if !exists k :: k in m && m[k] == x {
      assert false;
    }
  }

  /** Some element of a non-empty set (the iteration order of the source is not modelled). */
  method Pick(s: set<int>) returns (k: int)
    requires s != {}
    ensures k in s
  {
    NonEmptyHasMember(s);
    k :| k in s;
  }

  /** `SELECT MAX(<column>) FROM <table>`: None on an empty table. */
  method MaxValue<T>(m: map<int, T>, f: T -> int) returns (r: Option<int>)
    ensures r.None? <==> |m| == 0
    ensures r.Some? ==> (exists k :: k in m && f(m[k]) == r.value)
    ensures r.Some? ==> forall k :: k in m ==> f(m[k]) <= r.value
  {
    r := None;
    var todo := m.Keys;
    while todo != {}
      invariant todo <= m.Keys
      invariant r.None? <==> todo == m.Keys
      invariant r.Some? ==> (exists k :: k in m && f(m[k]) == r.value)
      invariant r.Some? ==> forall k :: k in m && k !in todo ==> f(m[k]) <= r.value
      decreases todo
    {
      var k := Pick(todo);
      if r.None? || f(m[k]) > r.value {
        r := Some(f(m[k]));
      }
      todo := todo - {k};
    }
    if |m| == 0 {
      assert m.Keys == {};
    } else {
      assert m.Keys != {};
    }
  }
}

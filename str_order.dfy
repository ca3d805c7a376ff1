/**
  Python's ordering of `str` values (code point by code point, a proper prefix
  first) and `list.sort(key=..., reverse=...)`, which is stable in both
  directions: elements with equal keys keep their original relative order.
*/
module StrOrder {
  import Seqs

  /** Python's `a <= b` on strings. */
  function LessEq(a: string, b: string): bool
  {
    if a == [] then true
    else if b == [] then false
    else if a[0] != b[0] then a[0] < b[0]
    else LessEq(a[1..], b[1..])
  }

  lemma LessEqReflexive(a: string)
    ensures LessEq(a, a)
  {
  }

  lemma {:induction false} LessEqTotal(a: string, b: string)
    ensures LessEq(a, b) || LessEq(b, a)
  {
    if a != [] && b != [] && a[0] == b[0] {
      LessEqTotal(a[1..], b[1..]);
    }
  }

  lemma {:induction false} LessEqAntisymmetric(a: string, b: string)
    requires LessEq(a, b) && LessEq(b, a)
    ensures a == b
  {
    if a != [] && b != [] {
      LessEqAntisymmetric(a[1..], b[1..]);
      assert a == [a[0]] + a[1..] && b == [b[0]] + b[1..];
    }
  }

  lemma {:induction false} LessEqTransitive(a: string, b: string, c: string)
    requires LessEq(a, b) && LessEq(b, c)
    ensures LessEq(a, c)
  {
    if a != [] && b != [] && c != [] && a[0] == b[0] && b[0] == c[0] {
      LessEqTransitive(a[1..], b[1..], c[1..]);
    }
  }

  /** A proper prefix sorts first, as "2024-01-01" <= "2024-01-01T10:00". */
  lemma {:induction false} PrefixLessEq(a: string, b: string)
    requires |a| <= |b| && b[..|a|] == a
    ensures LessEq(a, b)
  {
    if a != [] {
      PrefixLessEq(a[1..], b[1..]);
    }
  }

  /** May `a` come before `b` in a list sorted ascending (or descending when `desc`)? */
  function Precedes(desc: bool, a: string, b: string): bool
  {
    if desc then LessEq(b, a) else LessEq(a, b)
  }

  predicate SortedBy<T>(s: seq<T>, key: T -> string, desc: bool)
  {
    forall i, j :: 0 <= i < j < |s| ==> Precedes(desc, key(s[i]), key(s[j]))
  }

  /** The elements of `s` whose key is `k`, in order. */
  function WithKey<T>(s: seq<T>, key: T -> string, k: string): (r: seq<T>)
    ensures |r| <= |s|
  {
    if s == [] then []
    else WithKey(s[..|s| - 1], key, k) + (if key(s[|s| - 1]) == k then [s[|s| - 1]] else [])
  }

  /** Insert `x` into `r` after every element that may precede it. */
  function Insert<T>(x: T, r: seq<T>, key: T -> string, desc: bool): seq<T>
  {
    if r == [] || Precedes(desc, key(r[|r| - 1]), key(x)) then r + [x]
    else Insert(x, r[..|r| - 1], key, desc) + [r[|r| - 1]]
  }

  /** Python's `sorted(s, key=key, reverse=desc)`. */
  function SortBy<T>(s: seq<T>, key: T -> string, desc: bool): seq<T>
  {
    if s == [] then [] else Insert(s[|s| - 1], SortBy(s[..|s| - 1], key, desc), key, desc)
  }

  lemma PrecedesTotal(desc: bool, a: string, b: string)
    ensures Precedes(desc, a, b) || Precedes(desc, b, a)
  {
    LessEqTotal(a, b);
  }

  lemma PrecedesTransitive(desc: bool, a: string, b: string, c: string)
    requires Precedes(desc, a, b) && Precedes(desc, b, c)
    ensures Precedes(desc, a, c)
  {
    if desc { LessEqTransitive(c, b, a); } else { LessEqTransitive(a, b, c); }
  }

  lemma {:induction false} InsertMultiset<T>(x: T, r: seq<T>, key: T -> string, desc: bool)
    ensures multiset(Insert(x, r, key, desc)) == multiset(r) + multiset{x}
  {
    if !(r == [] || Precedes(desc, key(r[|r| - 1]), key(x))) {
      var init := r[..|r| - 1];
      InsertMultiset(x, init, key, desc);
      assert r == init + [r[|r| - 1]];
    }
  }

  lemma {:induction false} InsertSorted<T>(x: T, r: seq<T>, key: T -> string, desc: bool)
    requires SortedBy(r, key, desc)
    ensures SortedBy(Insert(x, r, key, desc), key, desc)
  {
    var q := Insert(x, r, key, desc);
    if r == [] || Precedes(desc, key(r[|r| - 1]), key(x)) {
      forall i, j | 0 <= i < j < |q| ensures Precedes(desc, key(q[i]), key(q[j])) {
        if j == |r| && i < |r| - 1 {
          PrecedesTransitive(desc, key(r[i]), key(r[|r| - 1]), key(x));
        }
      }
    } else {
      var init, last := r[..|r| - 1], r[|r| - 1];
      assert SortedBy(init, key, desc);
      InsertSorted(x, init, key, desc);
      InsertMultiset(x, init, key, desc);
      var p := Insert(x, init, key, desc);
      assert q == p + [last];
      PrecedesTotal(desc, key(last), key(x));
      forall i | 0 <= i < |p| ensures Precedes(desc, key(p[i]), key(last)) {
        assert p[i] in multiset(p);
        if p[i] != x {
          assert p[i] in multiset(init);
          var m :| 0 <= m < |init| && init[m] == p[i];
          assert Precedes(desc, key(r[m]), key(r[|r| - 1]));
        }
      }
    }
  }

  lemma WithKeySnoc<T>(s: seq<T>, y: T, key: T -> string, k: string)
    ensures WithKey(s + [y], key, k) == WithKey(s, key, k) + (if key(y) == k then [y] else [])
  {
    assert (s + [y])[..|s|] == s;
  }

  lemma {:induction false} InsertWithKey<T>(x: T, r: seq<T>, key: T -> string, desc: bool, k: string)
    ensures WithKey(Insert(x, r, key, desc), key, k) == WithKey(r, key, k) + (if key(x) == k then [x] else [])
  {
    if r == [] || Precedes(desc, key(r[|r| - 1]), key(x)) {
      WithKeySnoc(r, x, key, k);
    } else {
      var init, last := r[..|r| - 1], r[|r| - 1];
      InsertWithKey(x, init, key, desc, k);
      var p := Insert(x, init, key, desc);
      assert Insert(x, r, key, desc) == p + [last];
      WithKeySnoc(p, last, key, k);
      assert r == init + [last];
      WithKeySnoc(init, last, key, k);
      var w := WithKey(init, key, k);
      if key(x) == k {
        LastKeyNot(desc, key(last), key(x));
        assert WithKey(p, key, k) == w + [x];
        assert WithKey(r, key, k) == w;
      } else {
        assert WithKey(p, key, k) == w;
      }
    }
  }

  /** An element that may not precede `x` does not share its key. */
  lemma LastKeyNot(desc: bool, a: string, b: string)
    requires !Precedes(desc, a, b)
    ensures a != b
  {
    if a == b { LessEqReflexive(a); }
  }

  /** The sort result is ordered by key. */
  lemma {:induction false} SortBySorted<T>(s: seq<T>, key: T -> string, desc: bool)
    ensures SortedBy(SortBy(s, key, desc), key, desc)
    ensures multiset(SortBy(s, key, desc)) == multiset(s)
    ensures forall k :: WithKey(SortBy(s, key, desc), key, k) == WithKey(s, key, k)
  {
    if s != [] {
      var init := s[..|s| - 1];
      SortBySorted(init, key, desc);
      var x, r := s[|s| - 1], SortBy(init, key, desc);
      InsertSorted(x, r, key, desc);
      InsertMultiset(x, r, key, desc);
      forall k ensures WithKey(SortBy(s, key, desc), key, k) == WithKey(s, key, k) {
        InsertWithKey(x, r, key, desc, k);
      }
      assert s == init + [x];
    }
  }

  /** The sort result is a rearrangement: same elements, same multiplicities. */
  lemma SortByPermutation<T>(s: seq<T>, key: T -> string, desc: bool)
    ensures multiset(SortBy(s, key, desc)) == multiset(s)
    ensures |SortBy(s, key, desc)| == |s|
  {
    SortBySorted(s, key, desc);
    assert |multiset(SortBy(s, key, desc))| == |multiset(s)|;
  }

  /** Stability: among elements with one key, the original order is kept. */
  lemma SortByStable<T>(s: seq<T>, key: T -> string, desc: bool, k: string)
    ensures WithKey(SortBy(s, key, desc), key, k) == WithKey(s, key, k)
  {
    SortBySorted(s, key, desc);
  }

  /** Inserting, then mapping, is inserting the image into the mapped list,
      when an element's key is the key of its image. */
  lemma {:induction false} MapInsert<T, U>(x: T, r: seq<T>, key: T -> string, f: T -> U, key2: U -> string, desc: bool)
    requires forall y :: key(y) == key2(f(y))
    ensures Seqs.Map(Insert(x, r, key, desc), f) == Insert(f(x), Seqs.Map(r, f), key2, desc)
  {
    if r == [] || Precedes(desc, key(r[|r| - 1]), key(x)) {
      Seqs.MapSnoc(r, x, f);
    } else {
      var init, y := r[..|r| - 1], r[|r| - 1];
      MapInsert(x, init, key, f, key2, desc);
      assert r == init + [y];
      Seqs.MapSnoc(init, y, f);
      Seqs.MapSnoc(Insert(x, init, key, desc), y, f);
    }
  }

  /** Sorting commutes with a map that keeps the keys. */
  lemma {:induction false} MapSortBy<T, U>(s: seq<T>, key: T -> string, f: T -> U, key2: U -> string, desc: bool)
    requires forall y :: key(y) == key2(f(y))
    ensures Seqs.Map(SortBy(s, key, desc), f) == SortBy(Seqs.Map(s, f), key2, desc)
  {
    if s != [] {
      var init, x := s[..|s| - 1], s[|s| - 1];
      MapSortBy(init, key, f, key2, desc);
      MapInsert(x, SortBy(init, key, desc), key, f, key2, desc);
      assert s == init + [x];
      Seqs.MapSnoc(init, x, f);
    }
  }

  lemma {:induction false} WithKeyMembers<T>(s: seq<T>, key: T -> string, k: string)
    ensures forall x :: x in WithKey(s, key, k) <==> x in s && key(x) == k
  {
    if s != [] {
      WithKeyMembers(s[..|s| - 1], key, k);
      assert s == s[..|s| - 1] + [s[|s| - 1]];
    }
  }
}

/** Python's list comprehensions, `[x for x in s if p(x)]` and
    `[f(x) for x in s]`, and a loop that converts elements one by one until
    one of them raises. */
module Seqs {
  import opened Wrappers

  function Filter<T>(s: seq<T>, p: T -> bool): (r: seq<T>)
    ensures |r| <= |s|
    ensures forall i :: 0 <= i < |r| ==> r[i] in s && p(r[i])
    ensures forall i :: 0 <= i < |s| && p(s[i]) ==> s[i] in r
  {
    if s == [] then []
    else
      var init := Filter(s[..|s| - 1], p);
      var x := s[|s| - 1];
      assert forall i :: 0 <= i < |s| - 1 ==> s[i] == s[..|s| - 1][i];
      if p(x) then init + [x] else init
  }

  /** Every element is kept as often as it occurs in `s`, or dropped entirely. */
  lemma {:induction false} FilterMultiset<T>(s: seq<T>, p: T -> bool, x: T)
    ensures multiset(Filter(s, p))[x] == if p(x) then multiset(s)[x] else 0
  {
    if s != [] {
      FilterMultiset(s[..|s| - 1], p, x);
      assert s == s[..|s| - 1] + [s[|s| - 1]];
    }
  }

  /** Filtering twice is filtering once by the conjunction. */
  lemma {:induction false} FilterFilter<T>(s: seq<T>, p: T -> bool, q: T -> bool, pq: T -> bool)
    requires forall x :: pq(x) == (p(x) && q(x))
    ensures Filter(Filter(s, p), q) == Filter(s, pq)
  {
    if s != [] {
      var init := s[..|s| - 1];
      FilterFilter(init, p, q, pq);
      var x := s[|s| - 1];
      if p(x) {
        assert Filter(Filter(s, p), q) == Filter(Filter(init, p) + [x], q);
        assert (Filter(init, p) + [x])[..|Filter(init, p)|] == Filter(init, p);
      }
    }
  }

  /** A filter that every element passes keeps the sequence. */
  lemma {:induction false} FilterAll<T>(s: seq<T>, p: T -> bool)
    requires forall i :: 0 <= i < |s| ==> p(s[i])
    ensures Filter(s, p) == s
  {
    if s != [] {
      FilterAll(s[..|s| - 1], p);
      assert s == s[..|s| - 1] + [s[|s| - 1]];
    }
  }

  /** Python's `[f(x) for x in s]`. */
  function Map<T, U>(s: seq<T>, f: T -> U): (r: seq<U>)
    ensures |r| == |s| && forall i :: 0 <= i < |s| ==> r[i] == f(s[i])
  {
    seq(|s|, i requires 0 <= i < |s| => f(s[i]))
  }

  lemma MapSnoc<T, U>(s: seq<T>, x: T, f: T -> U)
    ensures Map(s + [x], f) == Map(s, f) + [f(x)]
    ensures Map(s + [x], f)[..|s|] == Map(s, f)
  {
  }

  /** Mapping the kept elements is keeping the mapped ones, when the test on
      an element is the test on its image. */
  lemma {:induction false} MapFilter<T, U>(s: seq<T>, p: T -> bool, f: T -> U, q: U -> bool)
    requires forall x :: p(x) == q(f(x))
    ensures Map(Filter(s, p), f) == Filter(Map(s, f), q)
  {
    if s != [] {
      var init, x := s[..|s| - 1], s[|s| - 1];
      MapFilter(init, p, f, q);
      assert s == init + [x];
      MapSnoc(init, x, f);
      if p(x) {
        MapSnoc(Filter(init, p), x, f);
      }
    }
  }

  /** Filtering a prefix keeps a prefix of what filtering the whole keeps. */
  lemma {:induction false} FilterPrefix<T>(s: seq<T>, p: T -> bool, m: nat)
    requires m <= |s|
    ensures var r := Filter(s[..m], p); |r| <= |Filter(s, p)| && r == Filter(s, p)[..|r|]
  {
    if m < |s| {
      var init := s[..|s| - 1];
      FilterPrefix(init, p, m);
      assert init[..m] == s[..m];
    } else {
      assert s[..m] == s;
    }
  }

  /** `f` applied to every element in order; `None` as soon as one fails. */
  function MapAll<T, U>(s: seq<T>, f: T -> Option<U>): (r: Option<seq<U>>)
    ensures r.Some? ==> |r.value| == |s|
  {
    if s == [] then Some([])
    else
      var init, y := MapAll(s[..|s| - 1], f), f(s[|s| - 1]);
      if init.Some? && y.Some? then Some(init.value + [y.value]) else None
  }

  /** A converted sequence between a first and a last element: element `k`
      of the whole is element `k - 1` of the input converted. */
  lemma FramedMapAll<T, U>(s: seq<T>, f: T -> Option<U>, a: U, c: U)
    requires MapAll(s, f).Some?
    ensures var p := [a] + MapAll(s, f).value + [c];
      && |p| == |s| + 2 && p[0] == a && p[|s| + 1] == c
      && forall k :: 1 <= k <= |s| ==> Some(p[k]) == f(s[k - 1])
  {
    MapAllAt(s, f);
    var es := MapAll(s, f).value;
    var p := [a] + es + [c];
    forall k | 1 <= k <= |s| ensures Some(p[k]) == f(s[k - 1]) {
      assert p[k] == es[k - 1];
    }
  }

  /** The parts of `[a] + b + c`, read back by position. */
  lemma ConsConcat<T>(a: T, b: seq<T>, c: seq<T>)
    ensures var s := [a] + b + c;
      && |s| == 1 + |b| + |c|
      && s[0] == a
      && (forall k :: 1 <= k <= |b| ==> s[k] == b[k - 1])
      && s[1 + |b|..] == c
  {
    var s := [a] + b + c;
    assert s[1 + |b|..] == c;
  }

  /** A non-empty sequence is its front followed by its last element. */
  lemma FrontLast<T>(s: seq<T>)
    requires s != []
    ensures s == s[..|s| - 1] + [s[|s| - 1]]
  {
  }

  /** Appending one element at a time is appending them all at once. */
  lemma AppendTwo<T>(s: seq<T>, a: T, b: T)
    ensures s + [a] + [b] == s + [a, b]
  {
  }

  lemma AppendThree<T>(s: seq<T>, a: T, b: T, c: T)
    ensures s + [a] + [b] + [c] == s + [a, b, c]
  {
  }

  lemma AppendFour<T>(s: seq<T>, a: T, b: T, c: T, d: T)
    ensures s + [a] + [b] + [c] + [d] == s + [a, b, c, d]
  {
  }

  /** One more element converted, as a loop converting a prefix sees it. */
  lemma MapAllStep<T, U>(s: seq<T>, i: nat, f: T -> Option<U>)
    requires i < |s|
    ensures MapAll(s[..i + 1], f) ==
      match (MapAll(s[..i], f), f(s[i]))
      case (Some(init), Some(y)) => Some(init + [y])
      case _ => None
  {
    assert s[..i + 1][..i] == s[..i];
  }

  /** The last element converted is the last element of the result. */
  lemma MapAllLast<T, U>(s: seq<T>, f: T -> Option<U>)
    requires s != [] && MapAll(s, f).Some?
    ensures f(s[|s| - 1]).Some? && MapAll(s, f).value[|s| - 1] == f(s[|s| - 1]).value
  {
  }

  /** The conversion succeeds exactly when every element converts, and then
      element `k` of the result is element `k` converted. */
  lemma {:induction false} MapAllAt<T, U>(s: seq<T>, f: T -> Option<U>)
    ensures MapAll(s, f).Some? <==> forall k :: 0 <= k < |s| ==> f(s[k]).Some?
    ensures MapAll(s, f).Some? ==> forall k :: 0 <= k < |s| ==> Some(MapAll(s, f).value[k]) == f(s[k])
  {
    if s != [] {
      var init := s[..|s| - 1];
      MapAllAt(init, f);
      assert forall k :: 0 <= k < |init| ==> init[k] == s[k];
    }
  }

  /** When the whole converts, so does every prefix, into the prefix of the
      converted whole. */
  lemma {:induction false} MapAllPrefix<T, U>(s: seq<T>, f: T -> Option<U>, m: nat)
    requires m <= |s| && MapAll(s, f).Some?
    ensures MapAll(s[..m], f).Some? && MapAll(s[..m], f).value == MapAll(s, f).value[..m]
  {
    if m < |s| {
      var init := s[..|s| - 1];
      MapAllPrefix(init, f, m);
      assert init[..m] == s[..m];
    } else {
      assert s[..m] == s;
    }
  }

  /** Python's `[x for x in s if p(x)]` when evaluating `p` may raise
      (`None`): the comprehension raises when `p` raises on any element. */
  function FilterSome<T>(s: seq<T>, p: T -> Option<bool>): (r: Option<seq<T>>)
    ensures r.Some? ==> |r.value| <= |s|
  {
    if s == [] then Some([])
    else match (FilterSome(s[..|s| - 1], p), p(s[|s| - 1]))
      case (Some(init), Some(keep)) => Some(if keep then init + [s[|s| - 1]] else init)
      case _ => None
  }

  /** The comprehension succeeds exactly when the test succeeds on every
      element, and then keeps the elements the test accepts, as `Filter`. */
  lemma {:induction false} FilterSomeIsFilter<T>(s: seq<T>, p: T -> Option<bool>, q: T -> bool)
    requires forall x :: q(x) == (p(x) == Some(true))
    ensures FilterSome(s, p).Some? <==> forall k :: 0 <= k < |s| ==> p(s[k]).Some?
    ensures FilterSome(s, p).Some? ==> FilterSome(s, p).value == Filter(s, q)
  {
    if s != [] {
      var init := s[..|s| - 1];
      var x := s[|s| - 1];
      FilterSomeIsFilter(init, p, q);
      assert Filter(s, q) == if q(x) then Filter(init, q) + [x] else Filter(init, q);
      if FilterSome(s, p).None? && FilterSome(init, p).Some? {
        assert p(s[|s| - 1]).None?;
      }
      if FilterSome(init, p).None? {
        var k :| 0 <= k < |init| && p(init[k]).None?;
        assert s[k] == init[k];
      }
      assert forall k :: 0 <= k < |init| ==> init[k] == s[k];
    }
  }

  /** When the comprehension succeeds on the whole, it succeeds on every
      prefix and keeps a prefix of what the whole keeps. */
  lemma {:induction false} FilterSomePrefix<T>(s: seq<T>, p: T -> Option<bool>, m: nat)
    requires m <= |s| && FilterSome(s, p).Some?
    ensures FilterSome(s[..m], p).Some?
    ensures var r := FilterSome(s[..m], p).value;
      |r| <= |FilterSome(s, p).value| && r == FilterSome(s, p).value[..|r|]
  {
    if m < |s| {
      var init := s[..|s| - 1];
      FilterSomePrefix(init, p, m);
      assert init[..m] == s[..m];
    } else {
      assert s[..m] == s;
    }
  }
}

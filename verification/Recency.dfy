/** Least-recently-used order: what a bounded list of keys, moved to the front on every touch, should
    contain after a history of touches. */
module Recency {
  import opened Common

  // ----- specification

  /** Keys by most recent touch, latest first, each once. */
  function Recent<K(==)>(h: seq<K>): seq<K> {
    if h == [] then [] else Front(Recent(h[..|h| - 1]), h[|h| - 1])
  }

  /** k at the front, and nowhere else. */
  function Front<K(==)>(keys: seq<K>, k: K): seq<K> {
    [k] + Without(keys, k)
  }

  function Without<K(==)>(keys: seq<K>, k: K): seq<K> {
    if keys == [] then []
    else if keys[0] == k then Without(keys[1..], k)
    else [keys[0]] + Without(keys[1..], k)
  }

  function RemoveAt<T>(s: seq<T>, i: nat): (r: seq<T>)
    requires i < |s|
    ensures |r| == |s| - 1 && forall j :: 0 <= j < |r| ==> r[j] == s[if j < i then j else j + 1]
  {
    seq(|s| - 1, j requires 0 <= j < |s| - 1 => s[if j < i then j else j + 1])
  }

  function Cut<T>(s: seq<T>, n: nat): seq<T> {
    if |s| <= n then s else s[..n]
  }

  /** What is kept of a history of touches by a list of n keys. */
  function Kept<K(==)>(h: seq<K>, n: nat): seq<K> {
    Cut(Recent(h), n)
  }

  /** The last position of k in h, or -1. */
  function LastTouch<K(==)>(h: seq<K>, k: K): (i: int)
    ensures -1 <= i < |h|
    ensures i >= 0 ==> h[i] == k
    ensures forall j :: i < j < |h| ==> h[j] != k
  {
    if h == [] then -1 else if h[|h| - 1] == k then |h| - 1 else LastTouch(h[..|h| - 1], k)
  }

  /** r lists exactly the keys of h, each once, later last touches first. */
  ghost predicate ByRecency<K(!new)>(h: seq<K>, r: seq<K>) {
    (forall k :: k in r <==> k in h) && LatestFirst(h, r)
  }

  predicate LatestFirst<K(==)>(h: seq<K>, r: seq<K>) {
    forall i, j :: 0 <= i < j < |r| ==> LastTouch(h, r[i]) > LastTouch(h, r[j])
  }

  // ----- Without

  lemma {:induction false} WithoutAbsent<K>(s: seq<K>, k: K)
    requires k !in s
    ensures Without(s, k) == s
  {
    if s != [] {
      assert s[0] in s;
      assert forall x :: x in s[1..] ==> x in s;
      WithoutAbsent(s[1..], k);
      assert s == [s[0]] + s[1..];
    }
  }

  lemma {:induction false} WithoutAt<K>(s: seq<K>, i: nat)
    requires Distinct(s) && i < |s|
    ensures Without(s, s[i]) == RemoveAt(s, i)
  {
    if i == 0 {
      assert s[0] !in s[1..];
      WithoutAbsent(s[1..], s[0]);
      assert RemoveAt(s, 0) == s[1..];
    } else {
      WithoutAt(s[1..], i - 1);
      assert [s[0]] + RemoveAt(s[1..], i - 1) == RemoveAt(s, i);
    }
  }

  lemma {:induction false} WithoutElements<K>(s: seq<K>, k: K, x: K)
    ensures x in Without(s, k) <==> x in s && x != k
  {
    if s != [] {
      WithoutElements(s[1..], k, x);
      assert x in s <==> x == s[0] || x in s[1..];
    }
  }

  lemma DistinctFront<K>(s: seq<K>, k: K)
    requires Distinct(s)
    ensures Distinct(Front(s, k))
  {
    if k in s {
      var i :| 0 <= i < |s| && s[i] == k;
      WithoutAt(s, i);
    } else {
      WithoutAbsent(s, k);
    }
  }

  lemma {:induction false} RecentDistinct<K>(h: seq<K>)
    ensures Distinct(Recent(h))
  {
    if h != [] {
      RecentDistinct(h[..|h| - 1]);
      DistinctFront(Recent(h[..|h| - 1]), h[|h| - 1]);
    }
  }

  lemma {:induction false} RecentElements<K>(h: seq<K>, k: K)
    ensures k in Recent(h) <==> k in h
  {
    if h != [] {
      var p, x := h[..|h| - 1], h[|h| - 1];
      RecentElements(p, k);
      WithoutElements(Recent(p), x, k);
      assert k in h <==> k in p || k == x;
    }
  }

  lemma LatestFirstFront<K>(p: seq<K>, x: K, r: seq<K>)
    requires LatestFirst(p, r) && x !in r
    ensures LatestFirst(p + [x], [x] + r)
  {
    var h := p + [x];
    assert h[..|h| - 1] == p;
    forall i | 0 <= i < |r| ensures LastTouch(h, r[i]) == LastTouch(p, r[i]) < |p| { }
    assert LastTouch(h, x) == |p|;
  }

  lemma LatestFirstRemoved<K>(h: seq<K>, r: seq<K>, i: nat)
    requires LatestFirst(h, r) && i < |r|
    ensures LatestFirst(h, RemoveAt(r, i))
  {
  }

  lemma LatestFirstWithout<K>(h: seq<K>, r: seq<K>, k: K)
    requires LatestFirst(h, r) && Distinct(r)
    ensures LatestFirst(h, Without(r, k))
  {
    if k in r {
      var i :| 0 <= i < |r| && r[i] == k;
      WithoutAt(r, i);
      LatestFirstRemoved(h, r, i);
    } else {
      WithoutAbsent(r, k);
    }
  }

  lemma {:induction false} RecentIsLatestFirst<K>(h: seq<K>)
    ensures LatestFirst(h, Recent(h))
  {
    if h != [] {
      var p, x := h[..|h| - 1], h[|h| - 1];
      RecentIsLatestFirst(p);
      RecentDistinct(p);
      LatestFirstWithout(p, Recent(p), x);
      WithoutElements(Recent(p), x, x);
      LatestFirstFront(p, x, Without(Recent(p), x));
      assert p + [x] == h;
    }
  }

  /** Recent is what its name says. */
  lemma RecentIsByRecency<K(!new)>(h: seq<K>)
    ensures ByRecency(h, Recent(h))
  {
    forall k ensures k in Recent(h) <==> k in h { RecentElements(h, k); }
    RecentIsLatestFirst(h);
  }

  lemma BothEmpty<K(!new)>(r: seq<K>, q: seq<K>)
    requires forall k :: k in r <==> k in q
    ensures r == [] <==> q == []
  {
    if r != [] { assert r[0] in q; }
    if q != [] { assert q[0] in r; }
  }

  /** And nothing else is. */
  lemma {:induction false} ByRecencyIsUnique<K(!new)>(h: seq<K>, r: seq<K>, q: seq<K>)
    requires LatestFirst(h, r) && LatestFirst(h, q) && forall k :: k in r <==> k in q
    ensures r == q
  {
    BothEmpty(r, q);
    if r != [] {
      assert r[0] in q;
      var j :| 0 <= j < |q| && q[j] == r[0];
      assert q[0] in r;
      var i :| 0 <= i < |r| && r[i] == q[0];
      assert r[0] == q[0];
      forall k ensures k in r[1..] <==> k in q[1..] {
        assert k in r <==> k == r[0] || k in r[1..];
        assert k in q <==> k == q[0] || k in q[1..];
        assert r[0] !in r[1..] && q[0] !in q[1..];
      }
      ByRecencyIsUnique(h, r[1..], q[1..]);
      assert r == [r[0]] + r[1..] && q == [q[0]] + q[1..];
    }
  }

  // ----- the bounded list follows the specification

  lemma RecentMore<K>(h: seq<K>, k: K)
    ensures Recent(h + [k]) == [k] + Without(Recent(h), k)
  {
    assert (h + [k])[..|h|] == h;
  }

  lemma CutWithin<T>(x: T, l: seq<T>, i: nat, n: nat)
    requires i < n && i < |l|
    ensures Cut([x] + RemoveAt(l, i), n) == [x] + RemoveAt(Cut(l, n), i)
  {
  }

  /** Touching a listed key. */
  lemma TouchKept<K>(h: seq<K>, k: K, n: nat)
    requires k in Kept(h, n)
    ensures Kept(h + [k], n) == Front(Kept(h, n), k)
  {
    var l := Recent(h);
    RecentDistinct(h);
    RecentMore(h, k);
    var i :| 0 <= i < |Kept(h, n)| && Kept(h, n)[i] == k;
    assert l[i] == k;
    WithoutAt(l, i);
    WithoutAt(Kept(h, n), i);
    CutWithin(k, l, i, n);
  }

  lemma CutTwice<T>(x: T, l: seq<T>, n: nat)
    ensures Cut([x] + l, n) == Cut([x] + Cut(l, n), n)
  {
  }

  /** What goes from beyond the cut makes no difference. */
  lemma CutBeyond<T>(x: T, l: seq<T>, i: nat, n: nat)
    requires n <= i < |l|
    ensures Cut([x] + RemoveAt(l, i), n) == Cut([x] + Cut(l, n), n)
  {
    assert RemoveAt(l, i)[..n] == l[..n];
    CutTwice(x, RemoveAt(l, i), n);
  }

  /** Touching a key that is not listed: it comes to the front and the last one may go. */
  lemma TouchNew<K>(h: seq<K>, k: K, n: nat)
    requires k !in Kept(h, n)
    ensures Kept(h + [k], n) == Cut([k] + Kept(h, n), n)
  {
    var l := Recent(h);
    RecentMore(h, k);
    if k in l {
      var i :| 0 <= i < |l| && l[i] == k;
      assert forall j :: 0 <= j < |Kept(h, n)| ==> l[j] == Kept(h, n)[j];
      RecentDistinct(h);
      WithoutAt(l, i);
      CutBeyond(k, l, i, n);
    } else {
      WithoutAbsent(l, k);
      CutTwice(k, l, n);
    }
  }

  /** What touching k does to a list of at most n keys. */
  function Touched<K(==)>(keys: seq<K>, k: K, n: nat): seq<K> {
    if k in keys then Front(keys, k) else Cut([k] + keys, n)
  }

  /** A list kept by touching alone holds the most recent keys of the whole history. */
  lemma TouchedIsKept<K>(h: seq<K>, k: K, n: nat)
    ensures Kept(h + [k], n) == Touched(Kept(h, n), k, n)
  {
    if k in Kept(h, n) { TouchKept(h, k, n); } else { TouchNew(h, k, n); }
  }

  lemma KeptDistinct<K>(h: seq<K>, n: nat)
    ensures Distinct(Kept(h, n)) && |Kept(h, n)| <= n
  {
    RecentDistinct(h);
  }

  // ----- stretches of a history

  /** r has held of every prefix of h longer than start, and not of that one. */
  ghost predicate Since<T>(r: seq<T> -> bool, h: seq<T>, start: nat) {
    start < |h| && !r(h[..start]) && forall j :: start < j <= |h| ==> r(h[..j])
  }

  lemma SinceExtends<T>(r: seq<T> -> bool, h: seq<T>, start: nat)
    requires h != [] && Since(r, h[..|h| - 1], start) && r(h)
    ensures Since(r, h, start)
  {
    var p := h[..|h| - 1];
    forall j | 0 <= j <= |p| ensures h[..j] == p[..j] { }
    assert h[..|h|] == h;
  }

  lemma SinceLast<T>(r: seq<T> -> bool, h: seq<T>)
    requires h != [] && !r(h[..|h| - 1]) && r(h)
    ensures Since(r, h, |h| - 1)
  {
    assert h[..|h|] == h;
  }
}

/** The LINQ operators the filters and the pager are written with. A query is
    modelled by the ordered sequence it yields when it is materialized. */
module Linq {

  /** `Where`: the elements of `s` that satisfy `p`, in input order. */
  function Where<T>(s: seq<T>, p: T -> bool): seq<T>
  {
    if s == [] then [] else (if p(s[0]) then [s[0]] else []) + Where(s[1..], p)
  }

  /** `Skip(n)`: a non-positive count skips nothing, a count past the end leaves nothing. */
  function Skip<T>(s: seq<T>, n: int): seq<T>
  {
    if n <= 0 then s else if n >= |s| then [] else s[n..]
  }

  /** `Take(n)`: a non-positive count takes nothing, a count past the end takes everything. */
  function Take<T>(s: seq<T>, n: int): seq<T>
  {
    if n <= 0 then [] else if n >= |s| then s else s[..n]
  }

  /** `Select`. */
  function Select<T, U>(s: seq<T>, f: T -> U): (r: seq<U>)
    ensures |r| == |s| && forall i | 0 <= i < |s| :: r[i] == f(s[i])
  {
    seq(|s|, i requires 0 <= i < |s| => f(s[i]))
  }

  function Not<T>(p: T -> bool): T -> bool
  {
    x => !p(x)
  }

  /** `OrderByDescending` with a boolean key. LINQ's sort is stable and orders
      `false` before `true`, so descending order puts the elements whose key is
      true first; each group keeps its input order. */
  function OrderByDescending<T>(s: seq<T>, key: T -> bool): seq<T>
  {
    Where(s, key) + Where(s, Not(key))
  }

  /** `a` is `b` with some elements left out, the rest in the same order. */
  ghost predicate IsSubsequence<T>(a: seq<T>, b: seq<T>)
  {
    if a == [] then true
    else if b == [] then false
    else (a[0] == b[0] && IsSubsequence(a[1..], b[1..])) || IsSubsequence(a, b[1..])
  }

  function Min(a: int, b: int): int { if a <= b then a else b }
  function Max(a: int, b: int): int { if a <= b then b else a }

  lemma {:induction false} WhereIsSubsequence<T>(s: seq<T>, p: T -> bool)
    ensures IsSubsequence(Where(s, p), s)
  {
    if s != [] {
      WhereIsSubsequence(s[1..], p);
      var w := Where(s[1..], p);
      if p(s[0]) {
        assert Where(s, p) == [s[0]] + w;
        assert ([s[0]] + w)[1..] == w;
      } else {
        assert Where(s, p) == w;
      }
    }
  }

  /** Every kept element satisfies `p`; every input element that satisfies `p` is kept. */
  lemma {:induction false} WhereMembership<T>(s: seq<T>, p: T -> bool, x: T)
    ensures x in Where(s, p) <==> x in s && p(x)
  {
    if s != [] {
      WhereMembership(s[1..], p, x);
      assert s == [s[0]] + s[1..];
    }
  }

  /** Each kept element occurs as often as in the input: nothing is duplicated. */
  lemma {:induction false} WhereCount<T>(s: seq<T>, p: T -> bool, x: T)
    ensures multiset(Where(s, p))[x] == if p(x) then multiset(s)[x] else 0
  {
    if s != [] {
      WhereCount(s[1..], p, x);
      assert s == [s[0]] + s[1..];
      assert multiset(s) == multiset([s[0]]) + multiset(s[1..]);
    }
  }

  lemma {:induction false} WhereAppend<T>(a: seq<T>, b: seq<T>, p: T -> bool)
    ensures Where(a + b, p) == Where(a, p) + Where(b, p)
  {
    if a != [] {
      WhereAppend(a[1..], b, p);
      assert (a + b)[1..] == a[1..] + b;
    } else {
      assert a + b == b;
    }
  }

  /** Filtering with `q` after `p` keeps what satisfies both; in particular `Where` is idempotent. */
  lemma {:induction false} WhereWhere<T>(s: seq<T>, p: T -> bool, q: T -> bool)
    requires forall x | x in s && p(x) :: q(x) == p(x)
    ensures Where(Where(s, p), q) == Where(s, p)
  {
    if s != [] {
      WhereWhere(s[1..], p, q);
      assert s[0] in s;
      if p(s[0]) {
        assert Where(s, p) == [s[0]] + Where(s[1..], p);
        WhereAppend([s[0]], Where(s[1..], p), q);
        assert [s[0]][1..] == [];
        assert q(s[0]);
        assert Where([s[0]], q) == [s[0]] + Where([], q);
        assert Where([s[0]], q) == [s[0]];
        assert Where(Where(s[1..], p), q) == Where(s[1..], p);
      } else {
        assert Where(s, p) == Where(s[1..], p);
      }
    }
  }

  lemma {:induction false} WhereAll<T>(s: seq<T>, p: T -> bool)
    requires forall x | x in s :: p(x)
    ensures Where(s, p) == s
  {
    if s != [] {
      WhereAll(s[1..], p);
      assert s == [s[0]] + s[1..];
    }
  }

  lemma {:induction false} WhereNone<T>(s: seq<T>, p: T -> bool)
    requires forall x | x in s :: !p(x)
    ensures Where(s, p) == []
  {
    if s != [] {
      WhereNone(s[1..], p);
    }
  }

  lemma {:induction false} WhereLength<T>(s: seq<T>, p: T -> bool)
    ensures |Where(s, p)| <= |s|
  {
    if s != [] {
      WhereLength(s[1..], p);
    }
  }

  /** `Where(p)` and `Where(!p)` split the input between them. */
  lemma {:induction false} WherePartition<T>(s: seq<T>, p: T -> bool)
    ensures multiset(Where(s, p)) + multiset(Where(s, Not(p))) == multiset(s)
  {
    if s != [] {
      WherePartition(s[1..], p);
      assert s == [s[0]] + s[1..];
      assert Not(p)(s[0]) == !p(s[0]);
    }
  }

  /** `OrderByDescending` over a boolean key is a stable sort: a permutation of
      its input, ordered by the key (true before false), and each key group in
      input order. */
  lemma OrderByDescendingIsStableSort<T>(s: seq<T>, key: T -> bool)
    ensures multiset(OrderByDescending(s, key)) == multiset(s)
    ensures forall i, j | 0 <= i < j < |OrderByDescending(s, key)| ::
              key(OrderByDescending(s, key)[j]) ==> key(OrderByDescending(s, key)[i])
    ensures Where(OrderByDescending(s, key), key) == Where(s, key)
    ensures Where(OrderByDescending(s, key), Not(key)) == Where(s, Not(key))
  {
    var a, b := Where(s, key), Where(s, Not(key));
    var r := a + b;
    WherePartition(s, key);
    assert multiset(r) == multiset(a) + multiset(b);
    forall i, j | 0 <= i < j < |r| && key(r[j]) ensures key(r[i]) {
      if j < |a| {
        assert r[i] == a[i] && a[i] in a;
        WhereMembership(s, key, a[i]);
      } else {
        assert r[j] == b[j - |a|] && r[j] in b;
        WhereMembership(s, Not(key), r[j]);
        assert false;
      }
    }
    WhereAppend(a, b, key);
    WhereAppend(a, b, Not(key));
    WhereWhere(s, key, key);
    WhereWhere(s, Not(key), Not(key));
    forall x | x in b ensures !key(x) { WhereMembership(s, Not(key), x); }
    forall x | x in a ensures !Not(key)(x) { WhereMembership(s, key, x); }
    WhereNone(b, key);
    WhereNone(a, Not(key));
  }

  /** `Take` yields a prefix, so nothing is invented or repeated. */
  lemma {:induction false} TakeIsPrefix<T>(s: seq<T>, n: int)
    ensures |Take(s, n)| <= Max(0, n) && |Take(s, n)| <= |s|
    ensures Take(s, n) == s[..|Take(s, n)|]
    ensures multiset(Take(s, n)) <= multiset(s)
  {
    var k := |Take(s, n)|;
    assert s == s[..k] + s[k..];
    assert multiset(s) == multiset(s[..k]) + multiset(s[k..]);
  }

  lemma {:induction false} SubsequenceReflexive<T>(a: seq<T>)
    ensures IsSubsequence(a, a)
  {
    if a != [] {
      SubsequenceReflexive(a[1..]);
    }
  }

  lemma {:induction false} SubsequenceTransitive<T>(a: seq<T>, b: seq<T>, c: seq<T>)
    requires IsSubsequence(a, b) && IsSubsequence(b, c)
    ensures IsSubsequence(a, c)
    decreases |c|
  {
    if a != [] && c != [] {
      if b[0] == c[0] && IsSubsequence(b[1..], c[1..]) {
        if a[0] == b[0] && IsSubsequence(a[1..], b[1..]) {
          SubsequenceTransitive(a[1..], b[1..], c[1..]);
        } else {
          SubsequenceTransitive(a, b[1..], c[1..]);
        }
      } else {
        SubsequenceTransitive(a, b, c[1..]);
      }
    }
  }

  /** `Where` depends only on what its predicate says about the input's elements. */
  lemma {:induction false} WhereCongruent<T>(s: seq<T>, p: T -> bool, q: T -> bool)
    requires forall x | x in s :: p(x) == q(x)
    ensures Where(s, p) == Where(s, q)
  {
    if s != [] {
      assert s[0] in s;
      assert forall x | x in s[1..] :: x in s;
      WhereCongruent(s[1..], p, q);
    }
  }
}

/** Sequence utilities the aggregations share: sums over a projection,
    the stable descending sort Python's `sorted(..., reverse=True)` performs,
    and the `[:n]` truncation. */
module Seqs {

  /** `sum(f(x) for x in s)`, accumulated left to right. */
  function Sum<T>(s: seq<T>, f: T -> real): real {
    if |s| == 0 then 0.0 else Sum(s[..|s| - 1], f) + f(s[|s| - 1])
  }

  lemma {:induction false} SumAppend<T>(s: seq<T>, t: seq<T>, f: T -> real)
    ensures Sum(s + t, f) == Sum(s, f) + Sum(t, f)
    decreases |t|
  {
    if |t| > 0 {
      assert (s + t)[..|s + t| - 1] == s + t[..|t| - 1];
      SumAppend(s, t[..|t| - 1], f);
    } else {
      assert s + t == s;
    }
  }

  lemma SumCons<T>(x: T, s: seq<T>, f: T -> real)
    ensures Sum([x] + s, f) == f(x) + Sum(s, f)
  {
    SumAppend([x], s, f);
    assert [x][..0] == [];
  }

  /** Replacing one element changes the sum by the difference of its projections. */
  lemma SumUpdate<T>(s: seq<T>, i: int, x: T, f: T -> real)
    requires 0 <= i < |s|
    ensures Sum(s[i := x], f) == Sum(s, f) - f(s[i]) + f(x)
  {
    assert s == s[..i] + [s[i]] + s[i + 1..];
    assert s[i := x] == s[..i] + [x] + s[i + 1..];
    SumAppend(s[..i] + [s[i]], s[i + 1..], f);
    SumAppend(s[..i] + [x], s[i + 1..], f);
    SumAppend(s[..i], [s[i]], f);
    SumAppend(s[..i], [x], f);
  }

  /** Sums over two sequences agree when their projections agree position
      by position. */
  lemma {:induction false} SumPointwise<A, B>(s: seq<A>, f: A -> real, t: seq<B>, g: B -> real)
    requires |s| == |t|
    requires forall i :: 0 <= i < |s| ==> f(s[i]) == g(t[i])
    ensures Sum(s, f) == Sum(t, g)
    decreases |s|
  {
    if |s| > 0 {
      SumPointwise(s[..|s| - 1], f, t[..|t| - 1], g);
    }
  }

  /** The key of every element is at least the key of every later element. */
  predicate SortedDesc<T>(s: seq<T>, key: T -> real) {
    forall i, j :: 0 <= i < j < |s| ==> key(s[i]) >= key(s[j])
  }

  /** The elements of `s` whose key equals `v`, in their order in `s`. */
  function WithKey<T>(s: seq<T>, key: T -> real, v: real): seq<T> {
    if |s| == 0 then []
    else (if key(s[0]) == v then [s[0]] else []) + WithKey(s[1..], key, v)
  }

  lemma {:induction false} WithKeyAppend<T>(s: seq<T>, t: seq<T>, key: T -> real, v: real)
    ensures WithKey(s + t, key, v) == WithKey(s, key, v) + WithKey(t, key, v)
    decreases |s|
  {
    if |s| > 0 {
      assert (s + t)[1..] == s[1..] + t;
      WithKeyAppend(s[1..], t, key, v);
    } else {
      assert s + t == t;
    }
  }

  /** An element no smaller than the head of a sorted sequence can go first. */
  lemma SortedCons<T>(a: T, t: seq<T>, key: T -> real)
    requires SortedDesc(t, key)
    requires |t| > 0 ==> key(a) >= key(t[0])
    ensures SortedDesc([a] + t, key)
  {
    var r := [a] + t;
    forall i, j | 0 <= i < j < |r|
      ensures key(r[i]) >= key(r[j])
    {
      if i == 0 && j > 1 {
        assert key(t[0]) >= key(t[j - 1]);
      }
    }
  }

  /** Puts `x` after every element whose key is at least `key(x)`, so that an
      element inserted later stays behind earlier ones of equal key. */
  function InsertDesc<T>(s: seq<T>, x: T, key: T -> real): (r: seq<T>)
    requires SortedDesc(s, key)
    ensures SortedDesc(r, key)
    ensures multiset(r) == multiset(s) + multiset{x}
    ensures |r| == |s| + 1
    ensures |r| > 0 && (r[0] == x || (|s| > 0 && r[0] == s[0]))
  {
    if |s| == 0 then [x]
    else if key(s[0]) >= key(x) then
      var t := InsertDesc(s[1..], x, key);
      InsertBehind(s, x, key, t);
      [s[0]] + t
    else
      [x] + s
  }

  /** The step of `InsertDesc` that keeps the head of `s` in front. */
  lemma InsertBehind<T>(s: seq<T>, x: T, key: T -> real, t: seq<T>)
    requires SortedDesc(s, key) && |s| > 0 && key(s[0]) >= key(x)
    requires SortedDesc(t, key) && multiset(t) == multiset(s[1..]) + multiset{x}
    requires |t| > 0 && (t[0] == x || (|s| > 1 && t[0] == s[1]))
    ensures SortedDesc([s[0]] + t, key)
    ensures multiset([s[0]] + t) == multiset(s) + multiset{x}
  {
    assert key(s[0]) >= key(t[0]) by {
      if t[0] != x {
        assert key(s[0]) >= key(s[1]);
      }
    }
    SortedCons(s[0], t, key);
    assert s == [s[0]] + s[1..];
  }

  /** Stable sort by non-increasing key: `sorted(s, key=key, reverse=True)`. */
  function SortDesc<T>(s: seq<T>, key: T -> real): (r: seq<T>)
    ensures SortedDesc(r, key)
    ensures multiset(r) == multiset(s)
    ensures |r| == |s|
  {
    if |s| == 0 then []
    else
      assert s == s[..|s| - 1] + [s[|s| - 1]];
      InsertDesc(SortDesc(s[..|s| - 1], key), s[|s| - 1], key)
  }

  lemma WithKeyCons<T>(a: T, t: seq<T>, key: T -> real, v: real)
    ensures WithKey([a] + t, key, v) == (if key(a) == v then [a] else []) + WithKey(t, key, v)
  {
    assert ([a] + t)[1..] == t;
  }

  /** Putting the same element in front of two sequences keeps a relation
      between their elements of key `v`. */
  lemma WithKeyConsBoth<T>(a: T, r: seq<T>, s: seq<T>, key: T -> real, v: real, tail: seq<T>)
    requires WithKey(r, key, v) == WithKey(s, key, v) + tail
    ensures WithKey([a] + r, key, v) == WithKey([a] + s, key, v) + tail
  {
    WithKeyCons(a, r, key, v);
    WithKeyCons(a, s, key, v);
  }

  lemma {:induction false} InsertDescWithKey<T>(s: seq<T>, x: T, key: T -> real, v: real)
    requires SortedDesc(s, key)
    ensures WithKey(InsertDesc(s, x, key), key, v)
            == WithKey(s, key, v) + (if key(x) == v then [x] else [])
    decreases |s|
  {
    if |s| == 0 {
      WithKeyCons(x, [], key, v);
    } else if key(s[0]) >= key(x) {
      InsertDescWithKey(s[1..], x, key, v);
      WithKeyConsBoth(s[0], InsertDesc(s[1..], x, key), s[1..], key, v, if key(x) == v then [x] else []);
      assert s == [s[0]] + s[1..];
    } else {
      WithKeyCons(x, s, key, v);
      if key(x) == v {
        NoneAbove(s, key, v);
      }
    }
  }

  /** In a sorted sequence whose first key is below `v`, no key equals `v`. */
  lemma {:induction false} NoneAbove<T>(s: seq<T>, key: T -> real, v: real)
    requires SortedDesc(s, key)
    requires |s| > 0 ==> key(s[0]) < v
    ensures WithKey(s, key, v) == []
    decreases |s|
  {
    if |s| > 0 {
      NoneAbove(s[1..], key, v);
    }
  }

  /** Appending one element adds it to the elements of its own key only. */
  lemma WithKeySnoc<T>(s: seq<T>, key: T -> real, v: real)
    requires |s| > 0
    ensures WithKey(s, key, v)
            == WithKey(s[..|s| - 1], key, v) + (if key(s[|s| - 1]) == v then [s[|s| - 1]] else [])
  {
    var x := s[|s| - 1];
    assert s == s[..|s| - 1] + [x];
    WithKeyAppend(s[..|s| - 1], [x], key, v);
    WithKeyCons(x, [], key, v);
    assert [x] + [] == [x];
  }

  /** The sort is stable: the elements sharing any one key keep their
      relative order. */
  lemma {:induction false} SortDescStable<T>(s: seq<T>, key: T -> real, v: real)
    ensures WithKey(SortDesc(s, key), key, v) == WithKey(s, key, v)
    decreases |s|
  {
    if |s| > 0 {
      SortDescStable(s[..|s| - 1], key, v);
      InsertDescWithKey(SortDesc(s[..|s| - 1], key), s[|s| - 1], key, v);
      WithKeySnoc(s, key, v);
    }
  }

  /** `rank` strictly increases along `s`. */
  predicate Chain<T>(s: seq<T>, rank: T -> int) {
    forall i, j :: 0 <= i < j < |s| ==> rank(s[i]) < rank(s[j])
  }

  lemma {:induction false} WithKeyMember<T>(s: seq<T>, key: T -> real, v: real, x: T)
    requires x in WithKey(s, key, v)
    ensures x in s && key(x) == v
    decreases |s|
  {
    if |s| > 0 {
      if x != s[0] || key(s[0]) != v {
        WithKeyCons(s[0], s[1..], key, v);
        assert s == [s[0]] + s[1..];
        WithKeyMember(s[1..], key, v, x);
      }
    }
  }

  /** Keeping the elements of one key keeps an increasing rank increasing. */
  lemma {:induction false} WithKeyChain<T>(s: seq<T>, key: T -> real, v: real, rank: T -> int)
    requires Chain(s, rank)
    ensures Chain(WithKey(s, key, v), rank)
    decreases |s|
  {
    if |s| > 0 {
      var t := s[1..];
      assert forall i :: 0 <= i < |t| ==> t[i] == s[i + 1];
      WithKeyChain(t, key, v, rank);
      var w := WithKey(t, key, v);
      WithKeyCons(s[0], t, key, v);
      assert s == [s[0]] + t;
      if key(s[0]) == v {
        var w' := [s[0]] + w;
        forall i, j | 0 <= i < j < |w'|
          ensures rank(w'[i]) < rank(w'[j])
        {
          if i == 0 {
            WithKeyMember(t, key, v, w[j - 1]);
            var m :| 0 <= m < |t| && t[m] == w[j - 1];
            assert w'[j] == s[m + 1];
          } else {
            assert w'[i] == w[i - 1] && w'[j] == w[j - 1];
          }
        }
      }
    }
  }

  /** An element of key `v` sits in the elements of key `v` right after
      those of key `v` before it. */
  lemma WithKeyPosition<T>(s: seq<T>, key: T -> real, v: real, i: int)
    requires 0 <= i < |s| && key(s[i]) == v
    ensures |WithKey(s[..i], key, v)| < |WithKey(s, key, v)|
    ensures WithKey(s, key, v)[|WithKey(s[..i], key, v)|] == s[i]
  {
    assert s == s[..i] + ([s[i]] + s[i + 1..]);
    WithKeyAppend(s[..i], [s[i]] + s[i + 1..], key, v);
    WithKeyCons(s[i], s[i + 1..], key, v);
  }

  lemma WithKeyPositionsOrdered<T>(s: seq<T>, key: T -> real, v: real, i: int, j: int)
    requires 0 <= i < j < |s| && key(s[i]) == v
    ensures |WithKey(s[..i], key, v)| < |WithKey(s[..j], key, v)|
  {
    WithKeyPosition(s[..j], key, v, i);
    assert s[..j][..i] == s[..i];
  }

  /** Elements of equal key leave the stable sort in their input order:
      when `rank` increases along the input, it increases between any two
      sorted elements of equal key. */
  lemma SortDescTies<T>(s: seq<T>, key: T -> real, rank: T -> int)
    requires Chain(s, rank)
    ensures forall i, j :: 0 <= i < j < |SortDesc(s, key)| && key(SortDesc(s, key)[i]) == key(SortDesc(s, key)[j]) ==>
      rank(SortDesc(s, key)[i]) < rank(SortDesc(s, key)[j])
  {
    var r := SortDesc(s, key);
    forall i, j | 0 <= i < j < |r| && key(r[i]) == key(r[j])
      ensures rank(r[i]) < rank(r[j])
    {
      var v := key(r[i]);
      SortDescStable(s, key, v);
      WithKeyChain(s, key, v, rank);
      WithKeyPosition(r, key, v, i);
      WithKeyPosition(r, key, v, j);
      WithKeyPositionsOrdered(r, key, v, i, j);
    }
  }

  lemma {:induction false} InsertDescSum<T>(s: seq<T>, x: T, key: T -> real, f: T -> real)
    requires SortedDesc(s, key)
    ensures Sum(InsertDesc(s, x, key), f) == Sum(s, f) + f(x)
    decreases |s|
  {
    if |s| == 0 {
      SumCons(x, [], f);
    } else if key(s[0]) >= key(x) {
      InsertDescSum(s[1..], x, key, f);
      SumCons(s[0], InsertDesc(s[1..], x, key), f);
      SumCons(s[0], s[1..], f);
      assert s == [s[0]] + s[1..];
    } else {
      SumCons(x, s, f);
    }
  }

  /** Reordering leaves any sum over the elements unchanged. */
  lemma {:induction false} SortDescSum<T>(s: seq<T>, key: T -> real, f: T -> real)
    ensures Sum(SortDesc(s, key), f) == Sum(s, f)
    decreases |s|
  {
    if |s| > 0 {
      SortDescSum(s[..|s| - 1], key, f);
      InsertDescSum(SortDesc(s[..|s| - 1], key), s[|s| - 1], key, f);
    }
  }

  /** `[f(x) for x in s]`. */
  function Project<T, U>(s: seq<T>, f: T -> U): (r: seq<U>)
    ensures |r| == |s| && forall i :: 0 <= i < |s| ==> r[i] == f(s[i])
  {
    seq(|s|, i requires 0 <= i < |s| => f(s[i]))
  }

  /** `s[:n]`. */
  function Take<T>(s: seq<T>, n: nat): (r: seq<T>)
    ensures |r| == if |s| < n then |s| else n
    ensures r <= s
  {
    if |s| <= n then s else s[..n]
  }
}

/**
 Sums over sequences and over finite maps, used wherever a stored total has to
 be explained by the rows of a table.
 */
module Sums {

  function Sum<T>(s: seq<T>, f: T -> real): real {
    if |s| == 0 then 0.0 else Sum(s[..|s| - 1], f) + f(s[|s| - 1])
  }

  lemma SumPush<T>(s: seq<T>, x: T, f: T -> real)
    ensures Sum(s + [x], f) == Sum(s, f) + f(x)
  {
    assert (s + [x])[..|s|] == s;
  }

  lemma {:induction false} SumConcat<T>(a: seq<T>, b: seq<T>, f: T -> real)
    ensures Sum(a + b, f) == Sum(a, f) + Sum(b, f)
  {
    if |b| == 0 {
      assert a + b == a;
    } else {
      var front, last := b[..|b| - 1], b[|b| - 1];
      assert a + b == (a + front) + [last];
      SumPush(a + front, last, f);
      SumConcat(a, front, f);
    }
  }

  lemma {:induction false} SumCongruent<T>(s: seq<T>, f: T -> real, g: T -> real)
    requires forall x :: x in s ==> f(x) == g(x)
    ensures Sum(s, f) == Sum(s, g)
  {
    if |s| > 0 {
      assert s[|s| - 1] in s;
      forall x | x in s[..|s| - 1] ensures f(x) == g(x) {
        assert x in s;
      }
      SumCongruent(s[..|s| - 1], f, g);
    }
  }

  lemma SumZero<T>(s: seq<T>, f: T -> real)
    requires forall x :: x in s ==> f(x) == 0.0
    ensures Sum(s, f) == 0.0
  {
    if |s| > 0 {
      assert s[|s| - 1] in s;
      SumZero(s[..|s| - 1], f);
    }
  }

  lemma SumNonNegative<T>(s: seq<T>, f: T -> real)
    requires forall x :: x in s ==> f(x) >= 0.0
    ensures Sum(s, f) >= 0.0
  {
    if |s| > 0 {
      assert s[|s| - 1] in s;
      SumNonNegative(s[..|s| - 1], f);
    }
  }

  /** The rows of s that p keeps, in order. */
  function Keep<T(!new)>(s: seq<T>, p: T -> bool): (r: seq<T>)
    ensures forall x :: x in r <==> x in s && p(x)
  {
    if |s| == 0 then []
    else Keep(s[..|s| - 1], p) + if p(s[|s| - 1]) then [s[|s| - 1]] else []
  }

  function Not<T>(p: T -> bool): T -> bool {
    (x: T) => !p(x)
  }

  /** A table splits into the rows kept and the rows deleted. */
  lemma {:induction false} SumSplit<T(!new)>(s: seq<T>, p: T -> bool, f: T -> real)
    ensures Sum(s, f) == Sum(Keep(s, p), f) + Sum(Keep(s, Not(p)), f)
  {
    if |s| > 0 {
      var front, last := s[..|s| - 1], s[|s| - 1];
      SumSplit(front, p, f);
      SumPush(Keep(front, p), last, f);
      SumPush(Keep(front, Not(p)), last, f);
      assert Keep(front, p) + [] == Keep(front, p);
      assert Keep(front, Not(p)) + [] == Keep(front, Not(p));
    }
  }

  lemma {:induction false} KeepConcat<T(!new)>(a: seq<T>, b: seq<T>, p: T -> bool)
    ensures Keep(a + b, p) == Keep(a, p) + Keep(b, p)
  {
    if |b| == 0 {
      assert a + b == a;
    } else {
      var front, last := b[..|b| - 1], b[|b| - 1];
      assert (a + b)[..|a + b| - 1] == a + front;
      KeepConcat(a, front, p);
    }
  }

  lemma {:induction false} KeepAll<T(!new)>(s: seq<T>, p: T -> bool)
    requires forall x :: x in s ==> p(x)
    ensures Keep(s, p) == s
  {
    if |s| > 0 {
      assert s[|s| - 1] in s;
      KeepAll(s[..|s| - 1], p);
      assert s == s[..|s| - 1] + [s[|s| - 1]];
    }
  }

  lemma KeepNone<T(!new)>(s: seq<T>, p: T -> bool)
    requires forall x :: x in s ==> !p(x)
    ensures Keep(s, p) == []
  {
    if |s| > 0 {
      assert s[|s| - 1] in s;
      KeepNone(s[..|s| - 1], p);
    }
  }

  lemma {:induction false} KeepKeep<T(!new)>(s: seq<T>, p: T -> bool, q: T -> bool)
    requires forall x :: q(x) ==> p(x)
    ensures Keep(Keep(s, p), q) == Keep(s, q)
  {
    if |s| > 0 {
      var front, last := s[..|s| - 1], s[|s| - 1];
      KeepKeep(front, p, q);
      KeepConcat(Keep(front, p), if p(last) then [last] else [], q);
    }
  }

  // ----- Maps -----

  ghost function Total<K, V>(m: map<K, V>, f: V -> real): real
    decreases |m|
  {
    if |m| == 0 then 0.0
    else
      var k := Pick(m);
      assert |m - {k}| == |m| - 1 by { RemoveSize(m, k); }
      f(m[k]) + Total(m - {k}, f)
  }

  ghost function Pick<K, V>(m: map<K, V>): (k: K)
    requires |m| > 0
    ensures k in m
  {
    assert m.Keys != {};
    var k :| k in m;
    k
  }

  lemma RemoveSize<K, V>(m: map<K, V>, k: K)
    requires k in m
    ensures |m - {k}| == |m| - 1
  {
    assert (m - {k}).Keys == m.Keys - {k};
    assert |(m - {k}).Keys| == |m - {k}|;
    assert |m.Keys| == |m|;
  }

  lemma {:induction false} TotalRemove<K, V>(m: map<K, V>, k: K, f: V -> real)
    requires k in m
    ensures Total(m, f) == f(m[k]) + Total(m - {k}, f)
    decreases |m|
  {
    RemoveSize(m, k);
    var j := Pick(m);
    if j != k {
      RemoveSize(m, j);
      TotalRemove(m - {j}, k, f);
      TotalRemove(m - {k}, j, f);
      assert m - {j} - {k} == m - {k} - {j};
    }
  }

  lemma TotalInsert<K, V>(m: map<K, V>, k: K, v: V, f: V -> real)
    requires k !in m
    ensures Total(m[k := v], f) == Total(m, f) + f(v)
  {
    TotalRemove(m[k := v], k, f);
    assert m[k := v] - {k} == m;
  }

  lemma TotalUpdate<K, V>(m: map<K, V>, k: K, v: V, f: V -> real)
    requires k in m
    ensures Total(m[k := v], f) == Total(m, f) - f(m[k]) + f(v)
  {
    TotalRemove(m, k, f);
    TotalRemove(m[k := v], k, f);
    assert m[k := v] - {k} == m - {k};
  }

  lemma {:induction false} TotalCongruent<K, V>(m: map<K, V>, f: V -> real, g: V -> real)
    requires forall k :: k in m ==> f(m[k]) == g(m[k])
    ensures Total(m, f) == Total(m, g)
    decreases |m|
  {
    if |m| > 0 {
      var k := Pick(m);
      RemoveSize(m, k);
      TotalRemove(m, k, f);
      TotalRemove(m, k, g);
      TotalCongruent(m - {k}, f, g);
    }
  }
}

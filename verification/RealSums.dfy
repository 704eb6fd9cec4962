/** Sums of a real-valued weight over a sequence. */
module RealSums {

  function Sum<T>(f: T -> real, s: seq<T>): real
    decreases |s|
  {
    if s == [] then 0.0 else Sum(f, s[..|s| - 1]) + f(s[|s| - 1])
  }

  lemma {:induction false} SumSplit<T>(f: T -> real, a: seq<T>, b: seq<T>)
    ensures Sum(f, a + b) == Sum(f, a) + Sum(f, b)
    decreases |b|
  {
    if b == [] {
      assert a + b == a;
    } else {
      SumSplit(f, a, b[..|b| - 1]);
      assert (a + b)[..|a + b| - 1] == a + b[..|b| - 1];
    }
  }

  lemma SumOne<T>(f: T -> real, x: T)
    ensures Sum(f, [x]) == f(x)
  {
    assert [x][..0] == [];
  }

  lemma SumFront<T>(f: T -> real, s: seq<T>)
    requires s != []
    ensures Sum(f, s) == f(s[0]) + Sum(f, s[1..])
  {
    assert s == [s[0]] + s[1..];
    SumSplit(f, [s[0]], s[1..]);
    SumOne(f, s[0]);
  }

  lemma SumCut<T>(f: T -> real, q: seq<T>, k: nat)
    requires k < |q|
    ensures Sum(f, q) == Sum(f, q[..k] + q[k + 1..]) + f(q[k])
    ensures multiset(q) == multiset(q[..k] + q[k + 1..]) + multiset{q[k]}
  {
    hide Sum;
    assert q == q[..k] + [q[k]] + q[k + 1..];
    SumSplit(f, q[..k], q[k + 1..]);
    SumSplit(f, q[..k] + [q[k]], q[k + 1..]);
    SumSplit(f, q[..k], [q[k]]);
    SumOne(f, q[k]);
  }

  /** A sum does not depend on the order. */
  lemma {:induction false} SumPermutes<T>(f: T -> real, p: seq<T>, q: seq<T>)
    requires multiset(p) == multiset(q)
    ensures Sum(f, p) == Sum(f, q)
    decreases |p|
  {
    if p == [] {
      assert |multiset(q)| == |q|;
    } else {
      var n := |p| - 1;
      var x := p[n];
      assert x in multiset(q);
      var k :| 0 <= k < |q| && q[k] == x;
      hide Sum;
      SumCut(f, p, n);
      SumCut(f, q, k);
      assert p[..n] + p[n + 1..] == p[..n];
      assert multiset(p[..n]) == multiset(p) - multiset{x};
      assert multiset(q[..k] + q[k + 1..]) == multiset(q) - multiset{x};
      SumPermutes(f, p[..n], q[..k] + q[k + 1..]);
    }
  }

  lemma {:induction false} SumIsNonNegative<T>(f: T -> real, s: seq<T>)
    requires forall x :: x in s ==> f(x) >= 0.0
    ensures Sum(f, s) >= 0.0
    decreases |s|
  {
    if s != [] { SumIsNonNegative(f, s[..|s| - 1]); }
  }
}

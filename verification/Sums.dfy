// Sums over fill sequences and over sets of symbols.

module Sums {
  import opened Models

  function Sum(fs: seq<Fill>, w: Fill -> real): real {
    if fs == [] then 0.0 else Sum(fs[..|fs| - 1], w) + w(fs[|fs| - 1])
  }

  lemma SumOneMore(fs: seq<Fill>, f: Fill, w: Fill -> real)
    ensures Sum(fs + [f], w) == Sum(fs, w) + w(f)
  {
    assert (fs + [f])[..|fs|] == fs;
  }

  lemma {:induction false} SumConcat(a: seq<Fill>, b: seq<Fill>, w: Fill -> real)
    ensures Sum(a + b, w) == Sum(a, w) + Sum(b, w)
  {
    if b == [] {
      assert a + b == a;
    } else {
      var n := |b| - 1;
      assert (a + b)[..|a + b| - 1] == a + b[..n];
      SumConcat(a, b[..n], w);
    }
  }

  lemma Without<T>(b: seq<T>, i: nat)
    requires i < |b|
    ensures multiset(b) == multiset(b[..i] + b[i + 1..]) + multiset{b[i]}
  {
    assert b == b[..i] + [b[i]] + b[i + 1..];
  }

  lemma Cancel<T(!new)>(m: multiset<T>, n: multiset<T>, x: T)
    requires m + multiset{x} == n + multiset{x}
    ensures m == n
  {
    forall y ensures m[y] == n[y] {
      assert (m + multiset{x})[y] == (n + multiset{x})[y];
    }
  }

  // A sum does not depend on the order of the fills.
  lemma {:induction false} SumPermuted(a: seq<Fill>, b: seq<Fill>, w: Fill -> real)
    requires multiset(a) == multiset(b)
    ensures Sum(a, w) == Sum(b, w)
    decreases |a|
  {
    if a == [] {
      assert |b| == |multiset(b)| == 0;
    } else {
      var n := |a| - 1;
      assert a[n] in multiset(b);
      var i :| 0 <= i < |b| && b[i] == a[n];
      Without(a, n);
      Without(b, i);
      assert a[..n] + a[n + 1..] == a[..n];
      Cancel(multiset(a[..n]), multiset(b[..i] + b[i + 1..]), a[n]);
      SumPermuted(a[..n], b[..i] + b[i + 1..], w);
      SumWithout(b, i, w);
    }
  }

  lemma SumWithout(b: seq<Fill>, i: nat, w: Fill -> real)
    requires i < |b|
    ensures Sum(b, w) == Sum(b[..i] + b[i + 1..], w) + w(b[i])
  {
    hide Sum;
    assert b == b[..i] + [b[i]] + b[i + 1..];
    SumConcat(b[..i] + [b[i]], b[i + 1..], w);
    SumOneMore(b[..i], b[i], w);
    SumConcat(b[..i], b[i + 1..], w);
  }

  lemma {:induction false} SumSame(fs: seq<Fill>, v: Fill -> real, w: Fill -> real)
    requires forall f :: f in fs ==> v(f) == w(f)
    ensures Sum(fs, v) == Sum(fs, w)
  {
    if fs != [] {
      SumSame(fs[..|fs| - 1], v, w);
    }
  }

  lemma {:induction false} SumNonNegative(fs: seq<Fill>, w: Fill -> real)
    requires forall f :: f in fs ==> w(f) >= 0.0
    ensures Sum(fs, w) >= 0.0
  {
    if fs != [] {
      SumNonNegative(fs[..|fs| - 1], w);
    }
  }

  // ----- What is summed -----

  function Qty(): Fill -> real { (f: Fill) => f.qty }

  function Fee(): Fill -> real { (f: Fill) => f.fee }

  // ----- Sums over a finite set -----

  ghost function Over<T>(keys: set<T>, g: T -> real): real {
    if keys == {} then 0.0
    else
      var k :| k in keys;
      g(k) + Over(keys - {k}, g)
  }

  // The sum does not depend on the order in which keys are picked.
  lemma {:induction false} OverPick<T>(keys: set<T>, g: T -> real, k: T)
    requires k in keys
    ensures Over(keys, g) == g(k) + Over(keys - {k}, g)
    decreases |keys|
  {
    var p :| p in keys && Over(keys, g) == g(p) + Over(keys - {p}, g);
    if p != k {
      OverPick(keys - {p}, g, k);
      OverPick(keys - {k}, g, p);
      assert keys - {p} - {k} == keys - {k} - {p};
    }
  }

  lemma {:induction false} OverSame<T>(keys: set<T>, g: T -> real, h: T -> real)
    requires forall k :: k in keys ==> g(k) == h(k)
    ensures Over(keys, g) == Over(keys, h)
    decreases |keys|
  {
    if keys != {} {
      var k :| k in keys;
      OverPick(keys, g, k);
      OverPick(keys, h, k);
      OverSame(keys - {k}, g, h);
    }
  }

  // Summands that differ at one key only.
  lemma OverChanged<T>(keys: set<T>, g: T -> real, h: T -> real, k: T)
    requires k in keys && forall j :: j in keys && j != k ==> g(j) == h(j)
    ensures Over(keys, h) == Over(keys, g) - g(k) + h(k)
  {
    OverPick(keys, g, k);
    OverPick(keys, h, k);
    OverSame(keys - {k}, g, h);
  }

  // A key outside the set adds its own summand.
  lemma OverAdded<T>(keys: set<T>, g: T -> real, k: T)
    requires k !in keys
    ensures Over(keys + {k}, g) == Over(keys, g) + g(k)
  {
    OverPick(keys + {k}, g, k);
    assert keys + {k} - {k} == keys;
  }

  // Keys with a zero summand may be left out.
  lemma {:induction false} OverIgnoresZeros<T>(keys: set<T>, more: set<T>, g: T -> real)
    requires keys <= more && forall k :: k in more && k !in keys ==> g(k) == 0.0
    ensures Over(more, g) == Over(keys, g)
    decreases |more - keys|
  {
    if keys != more {
      var k :| k in more && k !in keys;
      OverPick(more, g, k);
      assert more - keys == (more - {k} - keys) + {k};
      OverIgnoresZeros(keys, more - {k}, g);
    }
  }

  lemma {:induction false} OverMinus<T>(keys: set<T>, g: T -> real, h: T -> real, d: T -> real)
    requires forall k :: k in keys ==> d(k) == g(k) - h(k)
    ensures Over(keys, d) == Over(keys, g) - Over(keys, h)
    decreases |keys|
  {
    if keys != {} {
      var k :| k in keys;
      OverPick(keys, g, k);
      OverPick(keys, h, k);
      OverPick(keys, d, k);
      OverMinus(keys - {k}, g, h, d);
    }
  }

  lemma {:induction false} OverNonNegative<T>(keys: set<T>, g: T -> real)
    requires forall k :: k in keys ==> g(k) >= 0.0
    ensures Over(keys, g) >= 0.0
    decreases |keys|
  {
    if keys != {} {
      var k :| k in keys;
      OverPick(keys, g, k);
      OverNonNegative(keys - {k}, g);
    }
  }
}

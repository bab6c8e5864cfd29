/** Finite sums over the values of a map, with the two laws every counter
    argument in this project uses: taking one key out and changing one value. */
module Sums {

  ghost function Total<K>(f: map<K, nat>): nat
    decreases |f|
  {
    if f == map[] then 0 else var k :| k in f; f[k] + Total(f - {k})
  }

  lemma {:induction false} TotalAt<K>(f: map<K, nat>, k: K)
    requires k in f
    ensures Total(f) == f[k] + Total(f - {k})
    decreases |f|
  {
    var c :| c in f && Total(f) == f[c] + Total(f - {c});
    if c != k {
      TotalAt(f - {c}, k);
      TotalAt(f - {k}, c);
      assert f - {c} - {k} == f - {k} - {c};
    }
  }

  lemma TotalUpdate<K>(f: map<K, nat>, k: K, v: nat)
    ensures k in f ==> Total(f[k := v]) == Total(f) - f[k] + v
    ensures k !in f ==> Total(f[k := v]) == Total(f) + v
  {
    var g := f[k := v];
    TotalAt(g, k);
    assert g - {k} == f - {k};
    if k in f {
      TotalAt(f, k);
    } else {
      assert f - {k} == f;
    }
  }

  /** Two maps that differ at one key at most. */
  lemma TotalChange<K>(f: map<K, nat>, g: map<K, nat>, k: K)
    requires g.Keys == f.Keys && forall n :: n in f && n != k ==> g[n] == f[n]
    ensures if k in f then Total(g) + f[k] == Total(f) + g[k] else Total(g) == Total(f)
  {
    if k in f {
      assert g == f[k := g[k]];
      TotalUpdate(f, k, g[k]);
    } else {
      assert g == f;
    }
  }

  /** Weighted size of a bag. */
  ghost function SumOf<T>(bag: multiset<T>, f: T -> nat): nat
    decreases |bag|
  {
    if bag == multiset{} then 0 else var p :| p in bag; f(p) + SumOf(bag - multiset{p}, f)
  }

  lemma {:induction false} SumOfTake<T>(bag: multiset<T>, p: T, f: T -> nat)
    requires p in bag
    ensures SumOf(bag, f) == f(p) + SumOf(bag - multiset{p}, f)
    decreases |bag|
  {
    var c :| c in bag && SumOf(bag, f) == f(c) + SumOf(bag - multiset{c}, f);
    if c != p {
      SumOfTake(bag - multiset{c}, p, f);
      SumOfTake(bag - multiset{p}, c, f);
      assert bag - multiset{c} - multiset{p} == bag - multiset{p} - multiset{c};
    }
  }

  lemma SumOfAdd<T>(bag: multiset<T>, p: T, f: T -> nat)
    ensures SumOf(bag + multiset{p}, f) == SumOf(bag, f) + f(p)
  {
    SumOfTake(bag + multiset{p}, p, f);
    assert bag + multiset{p} - multiset{p} == bag;
  }

  lemma {:induction false} SumOfUnion<T>(a: multiset<T>, b: multiset<T>, f: T -> nat)
    ensures SumOf(a + b, f) == SumOf(a, f) + SumOf(b, f)
    decreases |b|
  {
    if b == multiset{} {
      assert a + b == a;
    } else {
      var p :| p in b;
      SumOfUnion(a, b - multiset{p}, f);
      SumOfTake(b, p, f);
      SumOfTake(a + b, p, f);
      assert a + b - multiset{p} == a + (b - multiset{p});
    }
  }

  lemma {:induction false} SumOfNone<T>(bag: multiset<T>, f: T -> nat)
    requires forall p :: p in bag ==> f(p) == 0
    ensures SumOf(bag, f) == 0
    decreases |bag|
  {
    if bag != multiset{} {
      var p :| p in bag;
      SumOfTake(bag, p, f);
      SumOfNone(bag - multiset{p}, f);
    }
  }

  lemma {:induction false} SumOfPositive<T>(bag: multiset<T>, f: T -> nat) returns (p: T)
    requires SumOf(bag, f) > 0
    ensures p in bag && f(p) > 0
    decreases |bag|
  {
    p :| p in bag;
    SumOfTake(bag, p, f);
    if f(p) == 0 {
      p := SumOfPositive(bag - multiset{p}, f);
    }
  }
}

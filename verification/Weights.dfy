/** Sums over the values of a map, used to count threads at a program point. */
module Weights {

  ghost function Weight<K, T>(m: map<K, T>, f: T -> nat): nat
    decreases m.Keys
  {
    if m == map[] then 0
    else
      var k :| k in m;
      f(m[k]) + Weight(m - {k}, f)
  }

  lemma {:induction false} WeightRemove<K, T>(m: map<K, T>, k: K, f: T -> nat)
    requires k in m
    ensures Weight(m, f) == f(m[k]) + Weight(m - {k}, f)
    decreases m.Keys
  {
    var pick :| pick in m && Weight(m, f) == f(m[pick]) + Weight(m - {pick}, f);
    if pick != k {
      WeightRemove(m - {pick}, k, f);
      WeightRemove(m - {k}, pick, f);
      assert m - {pick} - {k} == m - {k} - {pick};
    }
  }

  /** Changing one value changes the sum by the difference. */
  lemma WeightUpdate<K, T>(m: map<K, T>, k: K, v: T, f: T -> nat)
    ensures Weight(m[k := v], f) + (if k in m then f(m[k]) else 0) == Weight(m, f) + f(v)
  {
    WeightRemove(m[k := v], k, f);
    assert m[k := v] - {k} == m - {k};
    if k in m {
      WeightRemove(m, k, f);
    } else {
      assert m - {k} == m;
    }
  }

  lemma {:induction false} WeightOrder<K, T>(m: map<K, T>, f: T -> nat, g: T -> nat)
    requires forall k :: k in m ==> f(m[k]) <= g(m[k])
    ensures Weight(m, f) <= Weight(m, g)
    decreases m.Keys
  {
    if m != map[] {
      var k :| k in m;
      WeightRemove(m, k, f);
      WeightRemove(m, k, g);
      WeightOrder(m - {k}, f, g);
    }
  }

  lemma WeightSame<K, T>(m: map<K, T>, f: T -> nat, g: T -> nat)
    requires forall k :: k in m ==> f(m[k]) == g(m[k])
    ensures Weight(m, f) == Weight(m, g)
  {
    WeightOrder(m, f, g);
    WeightOrder(m, g, f);
  }

  lemma {:induction false} WeightZero<K, T>(m: map<K, T>, f: T -> nat)
    ensures Weight(m, f) == 0 <==> forall k :: k in m ==> f(m[k]) == 0
    decreases m.Keys
  {
    if m != map[] {
      forall k | k in m ensures Weight(m, f) == f(m[k]) + Weight(m - {k}, f) {
        WeightRemove(m, k, f);
      }
      var k :| k in m;
      WeightZero(m - {k}, f);
    }
  }

  lemma {:induction false} WeightBound<K, T>(m: map<K, T>, f: T -> nat, bound: nat)
    requires forall k :: k in m ==> f(m[k]) <= bound
    ensures Weight(m, f) <= bound * |m|
    decreases m.Keys
  {
    if m != map[] {
      var k :| k in m;
      WeightRemove(m, k, f);
      WeightBound(m - {k}, f, bound);
      RemoveSize(m, k);
      TimesNext(bound, |m - {k}|);
    }
  }

  lemma {:induction false} WeightSubset<K, T>(m: map<K, T>, a: set<K>, b: set<K>, f: T -> nat)
    requires a <= b
    ensures Weight(m - b, f) <= Weight(m - a, f)
    decreases b - a
  {
    if b - a == {} {
      assert b == a + (b - a) == a;
    } else {
      var k :| k in b - a;
      WeightSubset(m, a + {k}, b, f);
      assert m - (a + {k}) == (m - a) - {k};
      if k in m {
        WeightRemove(m - a, k, f);
      } else {
        assert m - a == m - a - {k};
      }
    }
  }

  lemma RemoveSize<K, T>(m: map<K, T>, k: K)
    requires k in m
    ensures |m| == |m - {k}| + 1
  {
    assert m.Keys == (m - {k}).Keys + {k};
  }

  lemma TimesNext(a: nat, n: nat)
    ensures a * (n + 1) == a * n + a
  {
  }

  lemma {:induction false} WeightOne<K, T>(m: map<K, T>, f: T -> nat)
    requires forall k :: k in m ==> f(m[k]) == 1
    ensures Weight(m, f) == |m|
    decreases m.Keys
  {
    if m != map[] {
      var k :| k in m;
      WeightRemove(m, k, f);
      WeightOne(m - {k}, f);
      RemoveSize(m, k);
    }
  }

  lemma {:induction false} WeightSum<K, T>(m: map<K, T>, f: T -> nat, g: T -> nat, h: T -> nat)
    requires forall k :: k in m ==> f(m[k]) + g(m[k]) == h(m[k])
    ensures Weight(m, f) + Weight(m, g) == Weight(m, h)
    decreases m.Keys
  {
    if m != map[] {
      var k :| k in m;
      WeightRemove(m, k, f);
      WeightRemove(m, k, g);
      WeightRemove(m, k, h);
      WeightSum(m - {k}, f, g, h);
    }
  }

  lemma {:induction false} TimesMonotone(a: nat, n: nat, n': nat)
    requires n <= n'
    ensures a * n <= a * n'
  {
    if n < n' {
      TimesMonotone(a, n, n' - 1);
      TimesNext(a, n' - 1);
    }
  }

  /** The keys whose value weighs one. */
  ghost function Ones<K, T>(m: map<K, T>, f: T -> nat): set<K> {
    set k | k in m && f(m[k]) == 1
  }

  /** A sum of zeros and ones is a number of keys. */
  lemma {:induction false} WeightCounts<K, T>(m: map<K, T>, f: T -> nat)
    requires forall k :: k in m ==> f(m[k]) <= 1
    ensures Weight(m, f) == |Ones(m, f)|
    decreases m.Keys
  {
    if m != map[] {
      var k :| k in m;
      WeightRemove(m, k, f);
      WeightCounts(m - {k}, f);
      assert Ones(m, f) == Ones(m - {k}, f) + if f(m[k]) == 1 then {k} else {};
    }
  }
}

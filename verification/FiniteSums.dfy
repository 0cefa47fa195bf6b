/** Sums over finite maps, used wherever a total is distributed over several owners. */
module FiniteSums {

  ghost function Sum<K>(m: map<K, nat>): nat
    decreases |m|
  {
    if m == map[] then 0 else
      var k :| k in m;
      m[k] + Sum(m - {k})
  }

  /** The sum does not depend on which key is taken out first. */
  lemma {:induction false} SumPick<K>(m: map<K, nat>, k: K)
    requires k in m
    ensures Sum(m) == m[k] + Sum(m - {k})
    decreases |m|
  {
    var c :| c in m && Sum(m) == m[c] + Sum(m - {c});
    if c != k {
      SumPick(m - {c}, k);
      SumPick(m - {k}, c);
      assert m - {c} - {k} == m - {k} - {c};
    }
  }

  lemma {:induction false} SumUpdate<K>(m: map<K, nat>, k: K, v: nat)
    ensures Sum(m[k := v]) + (if k in m then m[k] else 0) == Sum(m) + v
  {
    SumPick(m[k := v], k);
    if k in m {
      SumPick(m, k);
      assert m[k := v] - {k} == m - {k};
    } else {
      assert m[k := v] - {k} == m;
    }
  }

  lemma {:induction false} SumZero<K>(m: map<K, nat>)
    ensures Sum(m) == 0 <==> forall k :: k in m ==> m[k] == 0
    decreases |m|
  {
    if m != map[] {
      var c :| c in m && Sum(m) == m[c] + Sum(m - {c});
      SumZero(m - {c});
      forall k | k in m ensures k == c || k in m - {c} {}
    }
  }

  lemma {:induction false} SumAtMost<K>(a: map<K, nat>, b: map<K, nat>)
    requires forall k :: k in a ==> k in b && a[k] <= b[k]
    ensures Sum(a) <= Sum(b)
    decreases |b|
  {
    if b == map[] {
      assert a == map[];
    } else {
      var k :| k in b;
      SumPick(b, k);
      SumAtMost(a - {k}, b - {k});
      if k in a {
        SumPick(a, k);
      } else {
        assert a - {k} == a;
      }
    }
  }

  lemma SumBelow<K>(a: map<K, nat>, b: map<K, nat>, k: K)
    requires forall x :: x in a ==> x in b && a[x] <= b[x]
    requires k in b && (if k in a then a[k] < b[k] else b[k] > 0)
    ensures Sum(a) < Sum(b)
  {
    SumPick(b, k);
    SumAtMost(a - {k}, b - {k});
    if k in a {
      SumPick(a, k);
    } else {
      assert a - {k} == a;
    }
  }
}

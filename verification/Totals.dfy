/** Totals over a mapping whose absent keys stand for zero, as Solidity mappings do. */
module Totals {

  ghost function At<K>(m: map<K, real>, k: K): real {
    if k in m then m[k] else 0.0
  }

  ghost function Total<K>(m: map<K, real>): real
    decreases |m|
  {
    if m == map[] then 0.0 else
      var k :| k in m;
      m[k] + Total(m - {k})
  }

  /// The total does not depend on the order in which keys are taken.
  lemma {:induction false} TotalRemove<K>(m: map<K, real>, k: K)
    requires k in m
    ensures Total(m) == m[k] + Total(m - {k})
    decreases |m|
  {
    var first :| first in m && Total(m) == m[first] + Total(m - {first});
    if first != k {
      TotalRemove(m - {first}, k);
      TotalRemove(m - {k}, first);
      assert m - {first} - {k} == m - {k} - {first};
    }
  }

  /// Writing one entry changes the total by exactly the change of that entry.
  lemma TotalUpdate<K>(m: map<K, real>, k: K, v: real)
    ensures Total(m[k := v]) == Total(m) - At(m, k) + v
  {
    TotalRemove(m[k := v], k);
    assert m[k := v] - {k} == m - {k};
    if k in m {
      TotalRemove(m, k);
    } else {
      assert m - {k} == m;
    }
  }

  ghost predicate Below<K(!new)>(a: map<K, real>, b: map<K, real>) {
    forall k :: At(a, k) <= At(b, k)
  }

  lemma {:induction false} TotalNonNegative<K(!new)>(m: map<K, real>)
    requires forall k :: k in m ==> 0.0 <= m[k]
    ensures 0.0 <= Total(m)
    ensures forall k :: At(m, k) <= Total(m)
    decreases |m|
  {
    if m != map[] {
      var k :| k in m && Total(m) == m[k] + Total(m - {k});
      TotalNonNegative(m - {k});
      forall j
        ensures At(m, j) <= Total(m)
      {
        assert j != k ==> At(m, j) == At(m - {k}, j);
      }
    }
  }

  lemma BelowWithout<K(!new)>(a: map<K, real>, b: map<K, real>, k: K)
    requires Below(a, b)
    ensures Below(a - {k}, b - {k})
  {
    forall j
      ensures At(a - {k}, j) <= At(b - {k}, j)
    {
      assert j != k ==> At(a - {k}, j) == At(a, j) && At(b - {k}, j) == At(b, j);
    }
  }

  lemma TotalWithout<K>(m: map<K, real>, k: K)
    ensures Total(m) == At(m, k) + Total(m - {k})
    ensures |m - {k}| + (if k in m then 1 else 0) == |m|
  {
    if k in m {
      TotalRemove(m, k);
    } else {
      assert m - {k} == m;
    }
  }

  /// A mapping that is nowhere above another has a total that is not above the other's.
  lemma {:induction false} TotalBelow<K(!new)>(a: map<K, real>, b: map<K, real>)
    requires Below(a, b)
    ensures Total(a) <= Total(b)
    decreases |a| + |b|
  {
    if a != map[] || b != map[] {
      var k :| k in a || k in b;
      TotalWithout(a, k);
      TotalWithout(b, k);
      BelowWithout(a, b, k);
      assert At(a, k) <= At(b, k);
      TotalBelow(a - {k}, b - {k});
    }
  }

  /// The sum of two mappings, entry by entry.
  ghost function Plus<K>(m: map<K, real>, w: map<K, real>): map<K, real> {
    map k | k in m.Keys + w.Keys :: At(m, k) + At(w, k)
  }

  lemma PlusEntry<K>(m: map<K, real>, w: map<K, real>, k: K)
    requires k in w
    ensures Plus(m, w) == Plus(m, w - {k})[k := At(m, k) + w[k]]
    ensures At(Plus(m, w - {k}), k) == At(m, k)
  {
    var a, b := Plus(m, w), Plus(m, w - {k})[k := At(m, k) + w[k]];
    assert a.Keys == b.Keys;
    forall j | j in a.Keys
      ensures a[j] == b[j]
    {
      if j != k {
        assert At(w - {k}, j) == At(w, j);
      }
    }
  }

  lemma PlusTotal<K>(m: map<K, real>, w: map<K, real>, k: K)
    requires k in w
    ensures Total(Plus(m, w)) == Total(Plus(m, w - {k})) + w[k]
  {
    PlusEntry(m, w, k);
    TotalUpdate(Plus(m, w - {k}), k, At(m, k) + w[k]);
  }

  lemma {:induction false} TotalPlus<K>(m: map<K, real>, w: map<K, real>)
    ensures Total(Plus(m, w)) == Total(m) + Total(w)
    decreases |w|
  {
    if w == map[] {
      assert Plus(m, w) == m;
    } else {
      var k :| k in w;
      TotalWithout(w, k);
      TotalPlus(m, w - {k});
      PlusTotal(m, w, k);
    }
  }

  /// A product kept behind a name, so that equal factors are seen to give equal products.
  ghost function Times(c: real, x: real): real {
    c * x
  }

  lemma TimesPlus(c: real, x: real, y: real)
    ensures Times(c, x + y) == Times(c, x) + Times(c, y)
  {
  }

  lemma TimesSwap(a: real, b: real)
    ensures Times(a, b) == Times(b, a)
  {
  }

  lemma TimesMonotone(t: real, x: real, y: real)
    requires 0.0 <= t && x <= y
    ensures Times(t, x) <= Times(t, y)
  {
  }

  lemma TimesOneMore(c: real, x: real)
    ensures Times(c, x + 1.0) == Times(c, x) + c
    ensures Times(x + 1.0, c) == Times(x, c) + c
  {
  }

  lemma TimesZero(x: real)
    ensures Times(x, 0.0) == 0.0 == Times(0.0, x)
  {
  }

  /// Every entry multiplied by the same factor.
  ghost function Scaled<K>(w: map<K, real>, c: real): map<K, real> {
    map k | k in w :: Times(c, w[k])
  }

  lemma ScaledRest<K>(w: map<K, real>, k: K, c: real)
    requires k in w
    ensures Scaled(w, c) - {k} == Scaled(w - {k}, c)
  {
    var a, b := Scaled(w, c) - {k}, Scaled(w - {k}, c);
    assert a.Keys == b.Keys;
    forall j | j in a.Keys
      ensures a[j] == b[j]
    {
      assert (w - {k})[j] == w[j];
    }
  }

  lemma {:induction false} TotalScaled<K>(w: map<K, real>, c: real)
    ensures Total(Scaled(w, c)) == Times(c, Total(w))
    decreases |w|
  {
    if w == map[] {
      assert Scaled(w, c) == map[];
      TimesZero(c);
    } else {
      var k :| k in w;
      TotalWithout(w, k);
      TotalScaled(w - {k}, c);
      ScaledRest(w, k, c);
      TotalWithout(Scaled(w, c), k);
      TimesPlus(c, w[k], Total(w - {k}));
    }
  }

  /// A mapping of natural numbers read as real numbers.
  ghost function Reals<K>(m: map<K, nat>): map<K, real> {
    map k | k in m :: m[k] as real
  }

  function Get<K>(m: map<K, nat>, k: K): nat {
    if k in m then m[k] else 0
  }

  lemma NatTotalUpdate<K>(m: map<K, nat>, k: K, v: nat)
    ensures Total(Reals(m[k := v])) == Total(Reals(m)) - Get(m, k) as real + v as real
  {
    assert Reals(m[k := v]) == Reals(m)[k := v as real];
    TotalUpdate(Reals(m), k, v as real);
  }

  /// Moving out of one entry and into another.
  lemma NatTotalMove<K>(m: map<K, nat>, src: K, dst: K, taken: nat, given: nat)
    requires src != dst && taken <= Get(m, src)
    ensures Total(Reals(m[src := Get(m, src) - taken][dst := Get(m, dst) + given]))
         == Total(Reals(m)) - taken as real + given as real
  {
    NatTotalUpdate(m, src, Get(m, src) - taken);
    NatTotalUpdate(m[src := Get(m, src) - taken], dst, Get(m, dst) + given);
  }
}

/** Sums over finite sets. */
module Sums {

  ghost function Sum<K>(keys: set<K>, f: K -> int): int
    decreases |keys|
  {
    if keys == {} then
      0
    else
      var k :| k in keys;
      f(k) + Sum(keys - {k}, f)
  }

  lemma SumPick<K>(keys: set<K>, f: K -> int) returns (c: K)
    requires keys != {}
    ensures c in keys && Sum(keys, f) == f(c) + Sum(keys - {c}, f)
  {
    c :| c in keys && Sum(keys, f) == f(c) + Sum(keys - {c}, f);
  }

  lemma {:induction false} SumSplit<K>(keys: set<K>, f: K -> int, k: K)
    requires k in keys
    ensures Sum(keys, f) == f(k) + Sum(keys - {k}, f)
    decreases |keys|
  {
    var c := SumPick(keys, f);
    if k != c {
      SumSplit(keys - {c}, f, k);
      SumSplit(keys - {k}, f, c);
      assert keys - {c} - {k} == keys - {k} - {c};
    }
  }

  /** If f exceeds g by at most d everywhere, then so does the sum, that often. */
  lemma {:induction false} SumAtMost<K>(keys: set<K>, f: K -> int, g: K -> int, d: nat)
    requires forall k <- keys :: f(k) <= g(k) + d
    ensures Sum(keys, f) <= Sum(keys, g) + |keys| * d
    decreases |keys|
  {
    if keys != {} {
      var c := SumPick(keys, f);
      SumSplit(keys, g, c);
      SumAtMost(keys - {c}, f, g, d);
      assert |keys| * d == |keys - {c}| * d + d;
    }
  }

  lemma {:induction false} SumSame<K>(keys: set<K>, f: K -> int, g: K -> int)
    requires forall k <- keys :: f(k) == g(k)
    ensures Sum(keys, f) == Sum(keys, g)
    decreases |keys|
  {
    if keys != {} {
      var c := SumPick(keys, f);
      SumSplit(keys, g, c);
      SumSame(keys - {c}, f, g);
    }
  }

  lemma SumChange<K>(keys: set<K>, f: K -> int, g: K -> int, k: K)
    requires k in keys && forall c <- keys :: c != k ==> f(c) == g(c)
    ensures Sum(keys, g) - Sum(keys, f) == g(k) - f(k)
  {
    SumSplit(keys, f, k);
    SumSplit(keys, g, k);
    SumSame(keys - {k}, f, g);
  }

  lemma {:induction false} SumNatural<K>(keys: set<K>, f: K -> int)
    requires forall k <- keys :: f(k) >= 0
    ensures Sum(keys, f) >= 0
    decreases |keys|
  {
    if keys != {} {
      var c := SumPick(keys, f);
      SumNatural(keys - {c}, f);
    }
  }
}

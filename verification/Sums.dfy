/** Finite sums over sets, used to total a measure over the rows of a table. */
module Sums {

  ghost function Sum<K>(keys: set<K>, f: K -> int): int {
    if keys == {} then 0
    else
      var k :| k in keys;
      f(k) + Sum(keys - {k}, f)
  }

  /** Any element may be split off, not only the one the definition picks. */
  lemma {:induction false} SumSplit<K>(keys: set<K>, f: K -> int, k: K)
    requires k in keys
    ensures Sum(keys, f) == f(k) + Sum(keys - {k}, f)
  {
    var p :| p in keys && Sum(keys, f) == f(p) + Sum(keys - {p}, f);
    if p != k {
      SumSplit(keys - {p}, f, k);
      SumSplit(keys - {k}, f, p);
      assert keys - {p} - {k} == keys - {k} - {p};
    }
  }

  lemma {:induction false} SumSame<K>(keys: set<K>, f: K -> int, g: K -> int)
    requires forall k :: k in keys ==> f(k) == g(k)
    ensures Sum(keys, f) == Sum(keys, g)
  {
    if keys != {} {
      var k :| k in keys;
      SumSplit(keys, f, k);
      SumSplit(keys, g, k);
      SumSame(keys - {k}, f, g);
    }
  }

  lemma {:induction false} SumPlus<K>(keys: set<K>, f: K -> int, g: K -> int, h: K -> int)
    requires forall k :: k in keys ==> f(k) == g(k) + h(k)
    ensures Sum(keys, f) == Sum(keys, g) + Sum(keys, h)
  {
    if keys != {} {
      var k :| k in keys;
      SumSplit(keys, f, k);
      SumSplit(keys, g, k);
      SumSplit(keys, h, k);
      SumPlus(keys - {k}, f, g, h);
    }
  }

  lemma {:induction false} SumAtMost<K>(keys: set<K>, f: K -> int, g: K -> int)
    requires forall k :: k in keys ==> f(k) <= g(k)
    ensures Sum(keys, f) <= Sum(keys, g)
  {
    if keys != {} {
      var k :| k in keys;
      SumSplit(keys, f, k);
      SumSplit(keys, g, k);
      SumAtMost(keys - {k}, f, g);
    }
  }

  function Indicator<K(==)>(some: set<K>): K -> int {
    k => if k in some then 1 else 0
  }

  lemma {:induction false} SumIndicator<K>(keys: set<K>, some: set<K>)
    requires some <= keys
    ensures Sum(keys, Indicator(some)) == |some|
  {
    if keys != {} {
      var k :| k in keys;
      SumSplit(keys, Indicator(some), k);
      SumIndicator(keys - {k}, some - {k});
      SumSame(keys - {k}, Indicator(some), Indicator(some - {k}));
    }
  }
}

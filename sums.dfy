/**
 * Sums of an integer-valued function over a finite set of keys. The chain
 * model uses them for the pool of a market, the bet and win counters of a
 * user, and the total number of lamports.
 */
module Sums {

  ghost function SumOver<K>(keys: set<K>, f: K -> int): int
    decreases keys
  {
    if keys == {} then 0
    else
      var k :| k in keys;
      f(k) + SumOver(keys - {k}, f)
  }

  /** Any element can be split off, whichever one the definition picks. */
  lemma {:induction false} SumRemove<K>(keys: set<K>, f: K -> int, x: K)
    requires x in keys
    ensures SumOver(keys, f) == f(x) + SumOver(keys - {x}, f)
    decreases keys
  {
    var k :| k in keys && SumOver(keys, f) == f(k) + SumOver(keys - {k}, f);
    if k != x {
      SumRemove(keys - {k}, f, x);
      SumRemove(keys - {x}, f, k);
      assert keys - {k} - {x} == keys - {x} - {k};
    }
  }

  lemma {:induction false} SumCongruent<K>(keys: set<K>, f: K -> int, g: K -> int)
    requires forall k :: k in keys ==> f(k) == g(k)
    ensures SumOver(keys, f) == SumOver(keys, g)
    decreases keys
  {
    if keys != {} {
      var k :| k in keys;
      SumRemove(keys, f, k);
      SumRemove(keys, g, k);
      SumCongruent(keys - {k}, f, g);
    }
  }

  lemma {:induction false} SumZero<K>(keys: set<K>, f: K -> int)
    requires forall k :: k in keys ==> f(k) == 0
    ensures SumOver(keys, f) == 0
    decreases keys
  {
    if keys != {} {
      var k :| k in keys;
      SumRemove(keys, f, k);
      SumZero(keys - {k}, f);
    }
  }

  lemma {:induction false} SumMonotone<K>(keys: set<K>, f: K -> int, g: K -> int)
    requires forall k :: k in keys ==> f(k) <= g(k)
    ensures SumOver(keys, f) <= SumOver(keys, g)
    decreases keys
  {
    if keys != {} {
      var k :| k in keys;
      SumRemove(keys, f, k);
      SumRemove(keys, g, k);
      SumMonotone(keys - {k}, f, g);
    }
  }

  /** Changing the function at one key changes the sum by the difference. */
  lemma SumUpdate<K>(keys: set<K>, f: K -> int, g: K -> int, x: K)
    requires x in keys
    requires forall k :: k in keys && k != x ==> f(k) == g(k)
    ensures SumOver(keys, g) == SumOver(keys, f) - f(x) + g(x)
  {
    SumRemove(keys, f, x);
    SumRemove(keys, g, x);
    SumCongruent(keys - {x}, f, g);
  }

  /** Adding a fresh key adds its value to the sum. */
  lemma SumInsert<K>(keys: set<K>, f: K -> int, g: K -> int, x: K)
    requires x !in keys
    requires forall k :: k in keys ==> f(k) == g(k)
    ensures SumOver(keys + {x}, g) == SumOver(keys, f) + g(x)
  {
    SumRemove(keys + {x}, g, x);
    assert keys + {x} - {x} == keys;
    SumCongruent(keys, f, g);
  }

  /** Keys on which the function is zero do not change the sum. */
  lemma {:induction false} SumExtendByZeros<K>(small: set<K>, big: set<K>, f: K -> int)
    requires small <= big
    requires forall k :: k in big && k !in small ==> f(k) == 0
    ensures SumOver(big, f) == SumOver(small, f)
    decreases big
  {
    if big != small {
      assert exists y :: y in big && y !in small;
      var x :| x in big && x !in small;
      SumRemove(big, f, x);
      SumExtendByZeros(small, big - {x}, f);
    }
  }
}

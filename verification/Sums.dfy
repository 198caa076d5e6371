/** Sums of natural numbers over finite sets of keys. */
module Sums {
  ghost function SumOver<K(!new)>(keys: set<K>, f: K -> nat): nat {
    if keys == {} then 0
    else
      var k :| k in keys;
      f(k) + SumOver(keys - {k}, f)
  }

  lemma {:induction false} SumWithout<K(!new)>(keys: set<K>, f: K -> nat, k: K)
    requires k in keys
    ensures SumOver(keys, f) == f(k) + SumOver(keys - {k}, f)
    decreases |keys|
  {
    var first :| first in keys && SumOver(keys, f) == f(first) + SumOver(keys - {first}, f);
    if first != k {
      SumWithout(keys - {first}, f, k);
      SumWithout(keys - {k}, f, first);
      assert keys - {first} - {k} == keys - {k} - {first};
    }
  }

  lemma {:induction false} SumAtMost<K(!new)>(keys: set<K>, f: K -> nat, g: K -> nat)
    requires forall k :: k in keys ==> f(k) <= g(k)
    ensures SumOver(keys, f) <= SumOver(keys, g)
    decreases |keys|
  {
    if keys != {} {
      var k :| k in keys;
      SumWithout(keys, f, k);
      SumWithout(keys, g, k);
      SumAtMost(keys - {k}, f, g);
    }
  }

  /** Only `k` changes. */
  lemma SumChangesAt<K(!new)>(keys: set<K>, f: K -> nat, g: K -> nat, k: K)
    requires k in keys && forall j :: j in keys && j != k ==> f(j) == g(j)
    ensures SumOver(keys, f) + g(k) == SumOver(keys, g) + f(k)
  {
    SumWithout(keys, f, k);
    SumWithout(keys, g, k);
    SumAtMost(keys - {k}, f, g);
    SumAtMost(keys - {k}, g, f);
  }

  /** One key comes on top. */
  lemma SumGains<K(!new)>(keys: set<K>, more: set<K>, f: K -> nat, g: K -> nat, k: K)
    requires k !in keys && more == keys + {k} && forall j :: j in keys ==> f(j) == g(j)
    ensures SumOver(more, g) == SumOver(keys, f) + g(k)
  {
    SumWithout(more, g, k);
    assert more - {k} == keys;
    SumSame(keys, f, g);
  }

  lemma SumSame<K(!new)>(keys: set<K>, f: K -> nat, g: K -> nat)
    requires forall j :: j in keys ==> f(j) == g(j)
    ensures SumOver(keys, f) == SumOver(keys, g)
  {
    SumAtMost(keys, f, g);
    SumAtMost(keys, g, f);
  }
}

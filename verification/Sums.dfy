/** Totals over a set of keys, in no particular order. */
module Sums {
  ghost function Sum(keys: set<nat>, f: map<nat, nat>): nat
    requires keys <= f.Keys
  {
    if keys == {} then 0
    else
      var k :| k in keys;
      f[k] + Sum(keys - {k}, f)
  }

  lemma {:induction false} SumRemove(keys: set<nat>, f: map<nat, nat>, k: nat)
    requires keys <= f.Keys && k in keys
    ensures Sum(keys, f) == f[k] + Sum(keys - {k}, f)
  {
    var c :| c in keys && Sum(keys, f) == f[c] + Sum(keys - {c}, f);
    if c != k {
      SumRemove(keys - {c}, f, k);
      SumRemove(keys - {k}, f, c);
      assert keys - {c} - {k} == keys - {k} - {c};
    }
  }

  lemma SumAdd(keys: set<nat>, f: map<nat, nat>, k: nat)
    requires keys <= f.Keys && k in f && k !in keys
    ensures Sum(keys + {k}, f) == f[k] + Sum(keys, f)
  {
    SumRemove(keys + {k}, f, k);
    assert keys + {k} - {k} == keys;
  }

  lemma {:induction false} SumSame(keys: set<nat>, f: map<nat, nat>, g: map<nat, nat>)
    requires keys <= f.Keys && keys <= g.Keys
    requires forall k :: k in keys ==> f[k] == g[k]
    ensures Sum(keys, f) == Sum(keys, g)
  {
    if keys != {} {
      var k :| k in keys;
      SumRemove(keys, f, k);
      SumRemove(keys, g, k);
      SumSame(keys - {k}, f, g);
    }
  }

  lemma {:induction false} SumAtMost(keys: set<nat>, f: map<nat, nat>, g: map<nat, nat>)
    requires keys <= f.Keys && keys <= g.Keys
    requires forall k :: k in keys ==> f[k] <= g[k]
    ensures Sum(keys, f) <= Sum(keys, g)
  {
    if keys != {} {
      var k :| k in keys;
      SumRemove(keys, f, k);
      SumRemove(keys, g, k);
      SumAtMost(keys - {k}, f, g);
    }
  }

  /** One value changes: the total moves by the difference. */
  lemma SumUpdate(f: map<nat, nat>, k: nat, v: nat)
    ensures Sum(f[k := v].Keys, f[k := v]) + (if k in f then f[k] else 0) == Sum(f.Keys, f) + v
  {
    var g := f[k := v];
    SumRemove(g.Keys, g, k);
    SumSame(g.Keys - {k}, f, g);
    if k in f {
      SumRemove(f.Keys, f, k);
      assert f.Keys - {k} == g.Keys - {k};
    } else {
      assert g.Keys - {k} == f.Keys;
    }
  }
}

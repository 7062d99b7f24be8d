/**
  Total weight stored in a hash of `fish id -> weight`. The sum is taken over
  the keys in an arbitrary order; the lemmas below show that the order does
  not matter and how the total moves when one entry is updated or inserted.
 */
module MapSum {

  ghost function SumOver(w: map<string, int>, keys: set<string>): int
    requires keys <= w.Keys
    decreases keys
  {
    if keys == {} then 0
    else
      var k :| k in keys;
      w[k] + SumOver(w, keys - {k})
  }

  /** The sum of every weight in the hash. */
  ghost function Total(w: map<string, int>): int
  {
    SumOver(w, w.Keys)
  }

  /** Any key may be taken out first. */
  lemma {:induction false} SumOverPick(w: map<string, int>, keys: set<string>, k: string)
    requires keys <= w.Keys && k in keys
    ensures SumOver(w, keys) == w[k] + SumOver(w, keys - {k})
    decreases keys
  {
    var j :| j in keys && SumOver(w, keys) == w[j] + SumOver(w, keys - {j});
    if j != k {
      SumOverPick(w, keys - {j}, k);
      SumOverPick(w, keys - {k}, j);
      assert keys - {j} - {k} == keys - {k} - {j};
    }
  }

  /** Two hashes that agree on `keys` have the same sum over `keys`. */
  lemma {:induction false} SumOverAgree(w1: map<string, int>, w2: map<string, int>, keys: set<string>)
    requires keys <= w1.Keys && keys <= w2.Keys
    requires forall k | k in keys :: w1[k] == w2[k]
    ensures SumOver(w1, keys) == SumOver(w2, keys)
    decreases keys
  {
    if keys != {} {
      var k :| k in keys;
      SumOverPick(w1, keys, k);
      SumOverPick(w2, keys, k);
      SumOverAgree(w1, w2, keys - {k});
    }
  }

  /** Overwriting an existing entry moves the total by the difference. */
  lemma TotalUpdate(w: map<string, int>, k: string, v: int)
    requires k in w
    ensures Total(w[k := v]) == Total(w) - w[k] + v
  {
    var w' := w[k := v];
    assert w'.Keys == w.Keys;
    SumOverPick(w, w.Keys, k);
    SumOverPick(w', w.Keys, k);
    SumOverAgree(w, w', w.Keys - {k});
  }

  /** Inserting a new entry adds its value to the total. */
  lemma TotalInsert(w: map<string, int>, k: string, v: int)
    requires k !in w
    ensures Total(w[k := v]) == Total(w) + v
  {
    var w' := w[k := v];
    SumOverPick(w', w'.Keys, k);
    assert w'.Keys - {k} == w.Keys;
    SumOverAgree(w, w', w.Keys);
  }
}

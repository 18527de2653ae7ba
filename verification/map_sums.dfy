/** Sums over the values of a string-keyed map. The Python code tallies counts into
    dicts; the properties worth stating about those tallies ("the games of all
    champions add up to the number of matches") are sums over a map's values. */
module MapSums {

  ghost function SumValues(m: map<string, int>): int
    decreases |m|
  {
    if |m| == 0 then 0
    else
      var k :| k in m;
      m[k] + SumValues(m - {k})
  }

  /** Any key can be taken out first: the sum does not depend on the order. */
  lemma {:induction false} SumValuesRemove(m: map<string, int>, k: string)
    requires k in m
    ensures SumValues(m) == m[k] + SumValues(m - {k})
    decreases |m|, 1
  {
    assert |m| != 0;
    var j :| j in m && SumValues(m) == m[j] + SumValues(m - {j});
    if j != k {
      SumValuesSwap(m, j, k);
    }
  }

  /** Taking out `j` first or `k` first gives the same sum. */
  lemma {:induction false} SumValuesSwap(m: map<string, int>, j: string, k: string)
    requires j in m && k in m && j != k
    ensures m[j] + SumValues(m - {j}) == m[k] + SumValues(m - {k})
    decreases |m|, 0
  {
    var mj := m - {j};
    var mk := m - {k};
    RemoveShrinks(m, j);
    RemoveShrinks(m, k);
    SumValuesRemove(mj, k);
    SumValuesRemove(mk, j);
    assert mj - {k} == mk - {j};
  }

  lemma RemoveShrinks(m: map<string, int>, k: string)
    requires k in m
    ensures (m - {k}).Keys == m.Keys - {k}
    ensures |m - {k}| == |m| - 1
  {
    assert (m - {k}).Keys == m.Keys - {k};
    assert |m.Keys - {k}| == |m.Keys| - 1;
  }

  /** Adding `d` to the value under one key adds `d` to the sum. */
  lemma SumValuesUpdate(m: map<string, int>, k: string, v: int)
    ensures k in m ==> SumValues(m[k := v]) == SumValues(m) - m[k] + v
    ensures k !in m ==> SumValues(m[k := v]) == SumValues(m) + v
  {
    var m' := m[k := v];
    SumValuesRemove(m', k);
    assert m' - {k} == m - {k};
    if k in m {
      SumValuesRemove(m, k);
    } else {
      assert m - {k} == m;
    }
  }

  lemma SumValuesEmpty(m: map<string, int>)
    requires m == map[]
    ensures SumValues(m) == 0
  {
  }
}

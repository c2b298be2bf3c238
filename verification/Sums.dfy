/** Sums over finite maps. */
module Sums {
  ghost function Sum(m: map<string, int>): (n: int)
    decreases |m|
  {
    if m == map[] then 0
    else
      var k :| k in m;
      Smaller(m, k);
      m[k] + Sum(m - {k})
  }

  lemma Smaller(m: map<string, int>, k: string)
    requires k in m
    ensures |m - {k}| == |m| - 1
  {
    assert m == (m - {k})[k := m[k]];
  }

  lemma {:induction false} SumWithout(m: map<string, int>, k: string)
    requires k in m
    ensures Sum(m) == m[k] + Sum(m - {k})
    decreases |m|
  {
    var j :| j in m && Sum(m) == m[j] + Sum(m - {j});
    if j != k {
      Smaller(m, j);
      Smaller(m, k);
      SumWithout(m - {j}, k);
      SumWithout(m - {k}, j);
      assert m - {j} - {k} == m - {k} - {j};
    }
  }

  lemma SumPut(m: map<string, int>, k: string, v: int)
    ensures Sum(m[k := v]) == Sum(m) - (if k in m then m[k] else 0) + v
  {
    SumWithout(m[k := v], k);
    if k in m {
      SumWithout(m, k);
      assert m[k := v] - {k} == m - {k};
    } else {
      assert m[k := v] - {k} == m;
    }
    hide Sum;
  }

  lemma {:induction false} SumBounds(m: map<string, int>, k: string)
    requires k in m && forall j :: j in m ==> m[j] >= 0
    ensures 0 <= m[k] <= Sum(m)
    decreases |m|
  {
    SumWithout(m, k);
    if m - {k} != map[] {
      var j :| j in m - {k};
      Smaller(m, k);
      SumBounds(m - {k}, j);
    }
    hide Sum;
  }

  lemma {:induction false} SumZero(m: map<string, int>)
    requires forall j :: j in m ==> m[j] == 0
    ensures Sum(m) == 0
    decreases |m|
  {
    if m != map[] {
      var k :| k in m;
      SumWithout(m, k);
      Smaller(m, k);
      SumZero(m - {k});
    }
  }
}

/** Sums over the values of a finite map, and how they move when one entry changes. */
module MapSums {

  ghost function Total(m: map<nat, int>): int
  {
    if m == map[] then
      0
    else
      var k :| k in m;
      m[k] + Total(m - {k})
  }

  lemma {:induction false} TotalRemove(m: map<nat, int>, k: nat)
    requires k in m
    ensures Total(m) == m[k] + Total(m - {k})
    decreases |m|
  {
    var j :| j in m && Total(m) == m[j] + Total(m - {j});
    if j != k {
      TotalRemove(m - {j}, k);
      TotalRemove(m - {k}, j);
      assert m - {j} - {k} == m - {k} - {j};
    }
  }

  lemma TotalUpdate(m: map<nat, int>, k: nat, v: int)
    ensures Total(m[k := v]) == Total(m) - (if k in m then m[k] else 0) + v
  {
    TotalRemove(m[k := v], k);
    assert m[k := v] - {k} == m - {k};
    if k in m {
      TotalRemove(m, k);
    } else {
      assert m - {k} == m;
    }
  }

  lemma {:induction false} TotalNonNegative(m: map<nat, int>)
    requires forall k :: k in m ==> m[k] >= 0
    ensures Total(m) >= 0
    decreases |m|
  {
    if m != map[] {
      var k :| k in m;
      TotalRemove(m, k);
      TotalNonNegative(m - {k});
    }
  }

  lemma TotalBoundsEntry(m: map<nat, int>, k: nat)
    requires forall j :: j in m ==> m[j] >= 0
    requires k in m
    ensures m[k] <= Total(m)
  {
    TotalRemove(m, k);
    TotalNonNegative(m - {k});
  }

  /** The union, with multiplicities, of the values of a map. */
  ghost function Merged<T>(m: map<nat, multiset<T>>): multiset<T>
  {
    if m == map[] then multiset{}
    else
      var k :| k in m;
      m[k] + Merged(m - {k})
  }

  lemma {:induction false} MergedRemove<T>(m: map<nat, multiset<T>>, k: nat)
    requires k in m
    ensures Merged(m) == m[k] + Merged(m - {k})
    decreases |m|
  {
    var j :| j in m && Merged(m) == m[j] + Merged(m - {j});
    if j != k {
      MergedRemove(m - {j}, k);
      MergedRemove(m - {k}, j);
      assert m - {j} - {k} == m - {k} - {j};
      assert Merged(m) == m[j] + (m[k] + Merged(m - {j} - {k})) == m[k] + (m[j] + Merged(m - {j} - {k}));
    }
  }
}

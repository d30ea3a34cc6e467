/**
 * The sum of the values of a finite map from accounts to amounts, used to
 * state that a ledger neither creates nor destroys value.
 */
module MapSum {
  import opened Common

  ghost function Sum(m: map<AccountId, nat>): nat
    decreases m.Keys
  {
    if m == map[] then 0
    else
      var k :| k in m;
      m[k] + Sum(m - {k})
  }

  /** Removing any one key takes exactly its value out of the sum. */
  lemma {:induction false} SumRemove(m: map<AccountId, nat>, k: AccountId)
    requires k in m
    ensures Sum(m) == m[k] + Sum(m - {k})
    decreases m.Keys
  {
    var j :| j in m && Sum(m) == m[j] + Sum(m - {j});
    if j != k {
      var mj := m - {j};
      var mk := m - {k};
      SumRemove(mj, k);
      SumRemove(mk, j);
      assert mj - {k} == mk - {j};
    }
  }

  /** Overwriting the value at `k` changes the sum by the difference. */
  lemma {:induction false} SumUpdate(m: map<AccountId, nat>, k: AccountId, v: nat)
    ensures Sum(m[k := v]) == Sum(m) - GetOrZero(m, k) + v
    ensures GetOrZero(m, k) <= Sum(m)
  {
    var m' := m[k := v];
    SumRemove(m', k);
    assert m' - {k} == m - {k};
    if k in m {
      SumRemove(m, k);
    } else {
      assert m - {k} == m;
    }
  }

  /** Two different accounts together hold no more than the sum. */
  lemma {:induction false} SumPair(m: map<AccountId, nat>, a: AccountId, b: AccountId)
    requires a != b
    ensures GetOrZero(m, a) + GetOrZero(m, b) <= Sum(m)
  {
    SumUpdate(m, a, 0);
    var m' := m[a := 0];
    SumUpdate(m', b, 0);
    assert GetOrZero(m', b) == GetOrZero(m, b);
  }

  /**
   * Moving `amt` from `a` to `b` (debit first, then credit of what `b` then
   * holds) leaves the sum unchanged, also when `a == b`.
   */
  lemma {:induction false} SumMove(m: map<AccountId, nat>, a: AccountId, b: AccountId, amt: nat)
    requires amt <= GetOrZero(m, a)
    ensures var m1 := m[a := GetOrZero(m, a) - amt];
            Sum(m1[b := GetOrZero(m1, b) + amt]) == Sum(m)
  {
    var m1 := m[a := GetOrZero(m, a) - amt];
    SumUpdate(m, a, GetOrZero(m, a) - amt);
    SumUpdate(m1, b, GetOrZero(m1, b) + amt);
  }
}

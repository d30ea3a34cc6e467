/**
 * The storage shared by the ink! ERC-20 contracts: a `Mapping` from account
 * to `u128` balance and one from `(owner, spender)` to `u128` allowance,
 * both read with a default of 0, and the two ways the contracts move a
 * balance between accounts.
 *
 * - Debit first: `from` is written, then `to` is read and credited. A
 *   self-transfer then credits back what was debited.
 * - Snapshot: both balances are read first, then `from` and `to` are
 *   written. A self-transfer's second write overwrites the first, so the
 *   balance grows by the amount.
 */
module Token {
  import opened Common
  import opened MapSum

  type Balance = u128
  type Balances = map<AccountId, Balance>
  type Allowances = map<(AccountId, AccountId), Balance>

  /** `balances.get(who).unwrap_or_default()`. */
  function BalanceOf(b: Balances, who: AccountId): Balance
  {
    GetOrZero(b, who)
  }

  /** `allowances.get((owner, spender)).unwrap_or_default()`. */
  function AllowanceOf(a: Allowances, owner: AccountId, spender: AccountId): (r: Balance)
    ensures (owner, spender) in a ==> r == a[(owner, spender)]
    ensures (owner, spender) !in a ==> r == 0
  {
    if (owner, spender) in a then a[(owner, spender)] else 0
  }

  /** A balance held by one account never exceeds the sum of all balances. */
  lemma BalanceBelowSum(b: Balances, who: AccountId)
    ensures BalanceOf(b, who) <= Sum(b)
  {
    SumUpdate(b, who, 0);
  }

  /** The same for every account at once. */
  lemma EveryBalanceBelowSum(b: Balances)
    ensures forall who :: BalanceOf(b, who) <= Sum(b)
  {
    forall who
      ensures BalanceOf(b, who) <= Sum(b)
    {
      BalanceBelowSum(b, who);
    }
  }

  /**
   * Debit first, then credit what `to` then holds: `None` when that credit
   * leaves the `u128` range (`checked_add` fails).
   */
  function DebitThenCredit(b: Balances, from: AccountId, to: AccountId, value: Balance): (r: Option<Balances>)
    requires value <= BalanceOf(b, from)
    ensures var debited := b[from := BalanceOf(b, from) - value];
      r.Some? <==> BalanceOf(debited, to) + value <= U128_MAX
  {
    var debited := b[from := BalanceOf(b, from) - value];
    var credit := CheckedAddU128(BalanceOf(debited, to), value);
    if credit.None? then None else Some(debited[to := credit.value])
  }

  /**
   * While the balances sum to at most `u128::MAX` the credit cannot overflow,
   * the sum is preserved, and the move is what ERC-20 asks for: `from` loses
   * `value`, `to` gains it, a self-transfer changes nothing, no other balance
   * changes.
   */
  lemma {:induction false} DebitThenCreditMoves(b: Balances, from: AccountId, to: AccountId, value: Balance)
    requires value <= BalanceOf(b, from)
    requires Sum(b) <= U128_MAX
    ensures DebitThenCredit(b, from, to, value).Some?
    ensures var r := DebitThenCredit(b, from, to, value).value;
      Sum(r) == Sum(b) &&
      (from != to ==> BalanceOf(r, from) == BalanceOf(b, from) - value && BalanceOf(r, to) == BalanceOf(b, to) + value) &&
      (from == to ==> BalanceOf(r, from) == BalanceOf(b, from)) &&
      (forall c :: c != from && c != to ==> BalanceOf(r, c) == BalanceOf(b, c))
  {
    var debited := b[from := BalanceOf(b, from) - value];
    SumUpdate(b, from, BalanceOf(b, from) - value);
    BalanceBelowSum(debited, to);
    if from != to {
      SumPair(b, from, to);
    }
    assert BalanceOf(debited, to) + value <= U128_MAX;
    SumMove(b, from, to, value);
  }

  /**
   * Read both balances, then write `from - value` and `to + value`: `None`
   * when `to + value` leaves the `u128` range.
   */
  function SnapshotMove(b: Balances, from: AccountId, to: AccountId, value: Balance): (r: Option<Balances>)
    requires value <= BalanceOf(b, from)
    ensures r.Some? <==> BalanceOf(b, to) + value <= U128_MAX
  {
    var f, t := BalanceOf(b, from), BalanceOf(b, to);
    if t + value > U128_MAX then None else Some(b[from := f - value][to := t + value])
  }

  /**
   * Between two different accounts the snapshot move is a transfer and keeps
   * the sum; to oneself it raises the balance, and the sum, by `value`.
   */
  lemma {:induction false} SnapshotMoveEffect(b: Balances, from: AccountId, to: AccountId, value: Balance)
    requires value <= BalanceOf(b, from)
    requires SnapshotMove(b, from, to, value).Some?
    ensures var r := SnapshotMove(b, from, to, value).value;
      (from != to ==> BalanceOf(r, from) == BalanceOf(b, from) - value && BalanceOf(r, to) == BalanceOf(b, to) + value && Sum(r) == Sum(b)) &&
      (from == to ==> BalanceOf(r, from) == BalanceOf(b, from) + value && Sum(r) == Sum(b) + value) &&
      (forall c :: c != from && c != to ==> BalanceOf(r, c) == BalanceOf(b, c))
  {
    var f, t := BalanceOf(b, from), BalanceOf(b, to);
    var b1 := b[from := f - value];
    var r := b1[to := t + value];
    SumUpdate(b, from, f - value);
    SumUpdate(b1, to, t + value);
    if from != to {
      assert BalanceOf(b1, to) == t;
    }
  }
}

/**
 * The ink! ERC-20 example contract as homework-6/658, homework-6/677 and
 * homework-6/693 write it (the three agree line for line in their logic).
 * `transfer_from_to` checks the balance before any write, debits `from`
 * before reading `to`, and unwraps the checked credit; `transfer_from`
 * spends the allowance only after the transfer succeeded.
 *
 * While the balances sum to the total supply, which no message writes,
 * the unwrap never panics and every message keeps that sum.
 */
module Erc20Std {
  import opened Common
  import opened MapSum
  import opened Token

  datatype Error = InsufficientBalance | InsufficientAllowance

  datatype Event =
    | Transfer(from: Option<AccountId>, to: Option<AccountId>, value: Balance)
    | Approval(owner: AccountId, spender: AccountId, value: Balance)

  class Erc20 {
    /** `total_supply`, set by the constructor and never written again. */
    const totalSupply: Balance
    var balances: Balances
    var allowances: Allowances
    /** The events the contract has emitted. */
    var events: seq<Event>

    /** The balances account for exactly the total supply. */
    ghost predicate Valid()
      reads this
    {
      Sum(balances) == totalSupply
    }

    /** `new(total_supply)`: the caller holds the whole supply, announced by a mint event. */
    constructor (caller: AccountId, totalSupply: Balance)
      ensures this.totalSupply == totalSupply
      ensures balances == map[caller := totalSupply] && allowances == map[]
      ensures events == [Event.Transfer(None, Some(caller), totalSupply)]
      ensures Valid()
    {
      this.totalSupply := totalSupply;
      balances := map[caller := totalSupply];
      allowances := map[];
      events := [Event.Transfer(None, Some(caller), totalSupply)];
      new;
      SumUpdate(map[], caller, totalSupply);
    }

    /** `total_supply`: under `Valid`, no account holds more than it. */
    function TotalSupply(): (r: Balance)
      reads this
      ensures Valid() ==> forall who :: BalanceOf(balances, who) <= r
    {
      EveryBalanceBelowSum(balances);
      totalSupply
    }

    /**
     * `transfer_from_to`: `InsufficientBalance` before any write; otherwise
     * `from` is debited, `to` is read and credited with a checked add whose
     * `unwrap` panics (reverting the call) on overflow; a `Transfer` event.
     */
    method TransferFromTo(from: AccountId, to: AccountId, value: Balance) returns (r: Outcome<Error>)
      modifies this`balances, this`events
      ensures BalanceOf(old(balances), from) < value ==>
        r == Err(InsufficientBalance) && balances == old(balances) && events == old(events)
      ensures value <= BalanceOf(old(balances), from) ==>
        var moved := DebitThenCredit(old(balances), from, to, value);
        (moved.None? ==> r == Panic && balances == old(balances) && events == old(events)) &&
        (moved.Some? ==> r == Ok && balances == moved.value && events == old(events) + [Event.Transfer(Some(from), Some(to), value)])
      ensures old(Valid()) ==> Valid() && r != Panic
    {
      var b0 := balances;
      var fromBalance := BalanceOf(balances, from);
      if fromBalance < value {
        return Err(InsufficientBalance);
      }
      if old(Valid()) {
        DebitThenCreditMoves(b0, from, to, value);
      }
      balances := balances[from := fromBalance - value];
      var toBalance := BalanceOf(balances, to);
      var credit := CheckedAddU128(toBalance, value);
      if credit.None? {
        balances := b0;
        return Panic;
      }
      balances := balances[to := credit.value];
      events := events + [Event.Transfer(Some(from), Some(to), value)];
      r := Ok;
    }

    /** `transfer`: `transfer_from_to` from the caller. */
    method Transfer(caller: AccountId, to: AccountId, value: Balance) returns (r: Outcome<Error>)
      modifies this`balances, this`events
      ensures BalanceOf(old(balances), caller) < value ==>
        r == Err(InsufficientBalance) && balances == old(balances) && events == old(events)
      ensures value <= BalanceOf(old(balances), caller) ==>
        var moved := DebitThenCredit(old(balances), caller, to, value);
        (moved.None? ==> r == Panic && balances == old(balances) && events == old(events)) &&
        (moved.Some? ==> r == Ok && balances == moved.value && events == old(events) + [Event.Transfer(Some(caller), Some(to), value)])
      ensures old(Valid()) ==> Valid() && r != Panic
    {
      r := TransferFromTo(caller, to, value);
    }

    /** `approve`: overwrites the allowance `(caller, spender)` and emits `Approval`. */
    method Approve(caller: AccountId, spender: AccountId, value: Balance) returns (r: Outcome<Error>)
      modifies this`allowances, this`events
      ensures r == Ok
      ensures allowances == old(allowances)[(caller, spender) := value]
      ensures events == old(events) + [Approval(caller, spender, value)]
    {
      allowances := allowances[(caller, spender) := value];
      events := events + [Approval(caller, spender, value)];
      r := Ok;
    }

    /**
     * `transfer_from`: `InsufficientAllowance` when the caller's allowance
     * from `from` is below `value`; then the transfer, whose error is
     * returned with the allowance untouched; only after it succeeded the
     * allowance drops by `value`.
     */
    method TransferFrom(caller: AccountId, from: AccountId, to: AccountId, value: Balance) returns (r: Outcome<Error>)
      modifies this`balances, this`allowances, this`events
      ensures AllowanceOf(old(allowances), from, caller) < value ==>
        r == Err(InsufficientAllowance) && balances == old(balances) && allowances == old(allowances) && events == old(events)
      ensures value <= AllowanceOf(old(allowances), from, caller) && BalanceOf(old(balances), from) < value ==>
        r == Err(InsufficientBalance) && balances == old(balances) && allowances == old(allowances) && events == old(events)
      ensures value <= AllowanceOf(old(allowances), from, caller) && value <= BalanceOf(old(balances), from) ==>
        var moved := DebitThenCredit(old(balances), from, to, value);
        (moved.None? ==> r == Panic && balances == old(balances) && allowances == old(allowances) && events == old(events)) &&
        (moved.Some? ==>
           r == Ok && balances == moved.value &&
           allowances == old(allowances)[(from, caller) := AllowanceOf(old(allowances), from, caller) - value] &&
           events == old(events) + [Event.Transfer(Some(from), Some(to), value)])
      ensures old(Valid()) ==> Valid() && r != Panic
    {
      var allowance := AllowanceOf(allowances, from, caller);
      if allowance < value {
        return Err(InsufficientAllowance);
      }
      r := TransferFromTo(from, to, value);
      if r != Ok {
        return r;
      }
      allowances := allowances[(from, caller) := allowance - value];
    }
  }
}

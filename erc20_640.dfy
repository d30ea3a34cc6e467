/**
 * The ERC-20 contract of homework-6/640. `transfer_helper` reads both
 * balances before it checks and writes, so a transfer to oneself adds
 * `value`; its credit `balance_to + value` is unchecked and traps on
 * overflow, reverting the call. `transfer_from` writes the reduced
 * allowance before the helper runs, and a `BalanceTooLow` error returned by
 * the helper leaves it reduced.
 */
module Erc20v640 {
  import opened Common
  import opened MapSum
  import opened Token

  datatype Error = BalanceTooLow | AllowanceTooLow

  datatype Event =
    | Transfer(from: Option<AccountId>, to: Option<AccountId>, value: Balance)
    | Approval(owner: AccountId, spender: AccountId, value: Balance)

  class Erc20 {
    const totalSupply: Balance
    var balances: Balances
    var allowances: Allowances
    var events: seq<Event>

    /** `new(total_supply)`: the caller holds the supply; a mint event. */
    constructor (caller: AccountId, totalSupply: Balance)
      ensures this.totalSupply == totalSupply
      ensures balances == map[caller := totalSupply] && allowances == map[]
      ensures events == [Event.Transfer(None, Some(caller), totalSupply)]
    {
      this.totalSupply := totalSupply;
      balances := map[caller := totalSupply];
      allowances := map[];
      events := [Event.Transfer(None, Some(caller), totalSupply)];
    }

    /**
     * `transfer_helper`: `BalanceTooLow` with nothing written when `value`
     * exceeds the balance; else both writes and a `Transfer` event.
     */
    method TransferHelper(from: AccountId, to: AccountId, value: Balance) returns (r: Outcome<Error>)
      modifies this`balances, this`events
      ensures BalanceOf(old(balances), from) < value ==>
        r == Err(BalanceTooLow) && balances == old(balances) && events == old(events)
      ensures value <= BalanceOf(old(balances), from) ==>
        var moved := SnapshotMove(old(balances), from, to, value);
        (moved.None? ==> r == Panic && balances == old(balances) && events == old(events)) &&
        (moved.Some? ==> r == Ok && balances == moved.value && events == old(events) + [Event.Transfer(Some(from), Some(to), value)])
      ensures r == Ok ==> Sum(balances) == Sum(old(balances)) + (if from == to then value else 0)
    {
      var b0 := balances;
      var balanceFrom := BalanceOf(balances, from);
      var balanceTo := BalanceOf(balances, to);
      if value > balanceFrom {
        return Err(BalanceTooLow);
      }
      balances := balances[from := balanceFrom - value];
      if balanceTo + value > U128_MAX {
        balances := b0;
        return Panic;
      }
      balances := balances[to := balanceTo + value];
      events := events + [Event.Transfer(Some(from), Some(to), value)];
      SnapshotMoveEffect(b0, from, to, value);
      r := Ok;
    }

    /** `transfer`: `transfer_helper` from the caller. */
    method Transfer(caller: AccountId, to: AccountId, value: Balance) returns (r: Outcome<Error>)
      modifies this`balances, this`events
      ensures BalanceOf(old(balances), caller) < value ==>
        r == Err(BalanceTooLow) && balances == old(balances) && events == old(events)
      ensures value <= BalanceOf(old(balances), caller) ==>
        var moved := SnapshotMove(old(balances), caller, to, value);
        (moved.None? ==> r == Panic && balances == old(balances) && events == old(events)) &&
        (moved.Some? ==> r == Ok && balances == moved.value && events == old(events) + [Event.Transfer(Some(caller), Some(to), value)])
      ensures r == Ok ==> Sum(balances) == Sum(old(balances)) + (if caller == to then value else 0)
    {
      r := TransferHelper(caller, to, value);
    }

    /**
     * `transfer_from`: `AllowanceTooLow` when the caller's allowance from
     * `from` is short; else the reduced allowance is written, then the
     * helper runs; its `BalanceTooLow` keeps the reduced allowance.
     */
    method TransferFrom(caller: AccountId, from: AccountId, to: AccountId, value: Balance) returns (r: Outcome<Error>)
      modifies this`balances, this`allowances, this`events
      ensures AllowanceOf(old(allowances), from, caller) < value ==>
        r == Err(AllowanceTooLow) && balances == old(balances) && allowances == old(allowances) && events == old(events)
      ensures value <= AllowanceOf(old(allowances), from, caller) ==>
        var spent := old(allowances)[(from, caller) := AllowanceOf(old(allowances), from, caller) - value];
        (BalanceOf(old(balances), from) < value ==>
          r == Err(BalanceTooLow) && balances == old(balances) && allowances == spent && events == old(events)) &&
        (value <= BalanceOf(old(balances), from) ==>
          var moved := SnapshotMove(old(balances), from, to, value);
          (moved.None? ==> r == Panic && balances == old(balances) && allowances == old(allowances) && events == old(events)) &&
          (moved.Some? ==>
             r == Ok && balances == moved.value && allowances == spent &&
             events == old(events) + [Event.Transfer(Some(from), Some(to), value)]))
    {
      var a0 := allowances;
      var allowance := AllowanceOf(allowances, from, caller);
      if allowance < value {
        return Err(AllowanceTooLow);
      }
      allowances := allowances[(from, caller) := allowance - value];
      r := TransferHelper(from, to, value);
      if r == Panic {
        allowances := a0;
      }
    }

    /** `approve`: overwrites the allowance `(caller, to)` and emits `Approval`. */
    method Approve(caller: AccountId, to: AccountId, value: Balance) returns (r: Outcome<Error>)
      modifies this`allowances, this`events
      ensures r == Ok
      ensures allowances == old(allowances)[(caller, to) := value]
      ensures events == old(events) + [Approval(caller, to, value)]
    {
      allowances := allowances[(caller, to) := value];
      events := events + [Approval(caller, to, value)];
      r := Ok;
    }
  }
}

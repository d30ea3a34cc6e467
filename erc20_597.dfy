/**
 * The ERC-20 contract of homework-6/597. Its constructor emits no event.
 * `transfer_helper` reads both balances and computes both new balances
 * with checked arithmetic before it writes anything, reporting an
 * overflowing credit as `BalanceTooLow`; so every failure writes nothing,
 * but a transfer to oneself still adds `value`. `transfer_from` writes the
 * reduced allowance before the helper runs, and the helper's error leaves
 * it reduced.
 */
module Erc20v597 {
  import opened Common
  import opened MapSum
  import opened Token

  datatype Error = BalanceTooLow | AllowanceTooLow

  datatype Event =
    | Transfer(from: AccountId, to: AccountId, value: Balance)
    | Approve(from: AccountId, to: AccountId, value: Balance)

  class Erc20 {
    const totalSupply: Balance
    var balances: Balances
    var allowances: Allowances
    var events: seq<Event>

    /** `new(total_supply)`: the caller holds the supply; no event. */
    constructor (caller: AccountId, totalSupply: Balance)
      ensures this.totalSupply == totalSupply
      ensures balances == map[caller := totalSupply] && allowances == map[] && events == []
    {
      this.totalSupply := totalSupply;
      balances := map[caller := totalSupply];
      allowances := map[];
      events := [];
    }

    /**
     * `transfer_helper`: `BalanceTooLow` when `value` exceeds the balance or
     * the credit overflows, with nothing written; else both writes and a
     * `Transfer` event. Never panics.
     */
    method TransferHelper(from: AccountId, to: AccountId, value: Balance) returns (r: Outcome<Error>)
      modifies this`balances, this`events
      ensures r == Ok || r == Err(BalanceTooLow)
      ensures r == Ok <==> value <= BalanceOf(old(balances), from) && SnapshotMove(old(balances), from, to, value).Some?
      ensures r != Ok ==> balances == old(balances) && events == old(events)
      ensures r == Ok ==>
        balances == SnapshotMove(old(balances), from, to, value).value &&
        events == old(events) + [Event.Transfer(from, to, value)] &&
        Sum(balances) == Sum(old(balances)) + (if from == to then value else 0)
    {
      var b0 := balances;
      var balanceFrom := BalanceOf(balances, from);
      var balanceTo := BalanceOf(balances, to);
      if value > balanceFrom {
        return Err(BalanceTooLow);
      }
      // `checked_sub` cannot fail after the comparison above.
      var newBalanceFrom := balanceFrom - value;
      var credit := CheckedAddU128(balanceTo, value);
      if credit.None? {
        return Err(BalanceTooLow);
      }
      balances := balances[from := newBalanceFrom];
      balances := balances[to := credit.value];
      events := events + [Event.Transfer(from, to, value)];
      SnapshotMoveEffect(b0, from, to, value);
      r := Ok;
    }

    /** `transfer`: `transfer_helper` from the caller. */
    method Transfer(caller: AccountId, to: AccountId, value: Balance) returns (r: Outcome<Error>)
      modifies this`balances, this`events
      ensures r == Ok || r == Err(BalanceTooLow)
      ensures r == Ok <==> value <= BalanceOf(old(balances), caller) && SnapshotMove(old(balances), caller, to, value).Some?
      ensures r != Ok ==> balances == old(balances) && events == old(events)
      ensures r == Ok ==>
        balances == SnapshotMove(old(balances), caller, to, value).value &&
        events == old(events) + [Event.Transfer(caller, to, value)] &&
        Sum(balances) == Sum(old(balances)) + (if caller == to then value else 0)
    {
      r := TransferHelper(caller, to, value);
    }

    /**
     * `transfer_from`: `AllowanceTooLow` when the caller's allowance from
     * `from` is short; else the reduced allowance is written and the helper
     * runs, whatever it answers.
     */
    method TransferFrom(caller: AccountId, from: AccountId, to: AccountId, value: Balance) returns (r: Outcome<Error>)
      modifies this`balances, this`allowances, this`events
      ensures AllowanceOf(old(allowances), from, caller) < value ==>
        r == Err(AllowanceTooLow) && balances == old(balances) && allowances == old(allowances) && events == old(events)
      ensures value <= AllowanceOf(old(allowances), from, caller) ==>
        allowances == old(allowances)[(from, caller) := AllowanceOf(old(allowances), from, caller) - value] &&
        (r == Ok || r == Err(BalanceTooLow)) &&
        (r == Ok <==> value <= BalanceOf(old(balances), from) && SnapshotMove(old(balances), from, to, value).Some?) &&
        (r != Ok ==> balances == old(balances) && events == old(events)) &&
        (r == Ok ==>
           balances == SnapshotMove(old(balances), from, to, value).value &&
           events == old(events) + [Event.Transfer(from, to, value)])
    {
      var allowance := AllowanceOf(allowances, from, caller);
      if allowance < value {
        return Err(AllowanceTooLow);
      }
      // `checked_sub` cannot fail after the comparison above.
      var newAllowance := allowance - value;
      allowances := allowances[(from, caller) := newAllowance];
      r := TransferHelper(from, to, value);
    }

    /** `approve`: overwrites the allowance `(caller, to)` and emits `Approve`. */
    method Approve(caller: AccountId, to: AccountId, value: Balance) returns (r: Outcome<Error>)
      modifies this`allowances, this`events
      ensures r == Ok
      ensures allowances == old(allowances)[(caller, to) := value]
      ensures events == old(events) + [Event.Approve(caller, to, value)]
    {
      allowances := allowances[(caller, to) := value];
      events := events + [Event.Approve(caller, to, value)];
      r := Ok;
    }
  }
}

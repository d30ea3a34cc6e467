/**
 * The ERC-20 contract of homework-6/629. Its constructor emits no event.
 * `transfer_from` looks the allowance up under `(caller, from)`, the key
 * under which `approve` records what the CALLER granted to `from`, so an
 * approval lets the approver, not the spender, draw on the spender's
 * balance. `transfer_from_to` debits `from` before the checked credit and
 * returns `Overflow` with that debit kept; while the balances sum to the
 * total supply that error cannot occur.
 */
module Erc20v629 {
  import opened Common
  import opened MapSum
  import opened Token

  datatype Error = BalanceTooLow | AllowanceTooLow | Overflow

  datatype Event =
    | Transfer(from: AccountId, to: AccountId, value: Balance)
    | Approval(owner: AccountId, spender: AccountId, value: Balance)

  class Erc20 {
    const totalSupply: Balance
    var balances: Balances
    var allowances: Allowances
    var events: seq<Event>

    /** The balances account for exactly the total supply. */
    ghost predicate Valid()
      reads this
    {
      Sum(balances) == totalSupply
    }

    /** `new(total)`: the caller holds the supply; no event. */
    constructor (caller: AccountId, total: Balance)
      ensures totalSupply == total
      ensures balances == map[caller := total] && allowances == map[] && events == []
      ensures Valid()
    {
      totalSupply := total;
      balances := map[caller := total];
      allowances := map[];
      events := [];
      new;
      SumUpdate(map[], caller, total);
    }

    /** `allowances_of(owner, spender)`: the stored allowance, 0 when none. */
    function AllowancesOf(owner: AccountId, spender: AccountId): (r: Balance)
      reads this
      ensures (owner, spender) in allowances ==> r == allowances[(owner, spender)]
      ensures (owner, spender) !in allowances ==> r == 0
    {
      AllowanceOf(allowances, owner, spender)
    }

    /**
     * `transfer_from_to`: `BalanceTooLow` before any write; else `from` is
     * debited, `to` is read, and a failed checked credit returns `Overflow`
     * after the debit; else `to` is credited and a `Transfer` event emitted.
     */
    method TransferFromTo(from: AccountId, to: AccountId, value: Balance) returns (r: Outcome<Error>)
      modifies this`balances, this`events
      ensures BalanceOf(old(balances), from) < value ==>
        r == Err(BalanceTooLow) && balances == old(balances) && events == old(events)
      ensures value <= BalanceOf(old(balances), from) ==>
        var moved := DebitThenCredit(old(balances), from, to, value);
        (moved.None? ==>
           r == Err(Overflow) && events == old(events) &&
           balances == old(balances)[from := BalanceOf(old(balances), from) - value]) &&
        (moved.Some? ==> r == Ok && balances == moved.value && events == old(events) + [Event.Transfer(from, to, value)])
      ensures old(Valid()) ==> Valid() && r != Err(Overflow)
    {
      var b0 := balances;
      var fromBalance := BalanceOf(balances, from);
      if fromBalance < value {
        return Err(BalanceTooLow);
      }
      if old(Valid()) {
        DebitThenCreditMoves(b0, from, to, value);
      }
      balances := balances[from := fromBalance - value];
      var toBalance := BalanceOf(balances, to);
      var credit := CheckedAddU128(toBalance, value);
      if credit.None? {
        return Err(Overflow);
      }
      balances := balances[to := credit.value];
      events := events + [Event.Transfer(from, to, value)];
      r := Ok;
    }

    /** `transfer`: `transfer_from_to` from the caller. */
    method Transfer(caller: AccountId, to: AccountId, value: Balance) returns (r: Outcome<Error>)
      modifies this`balances, this`events
      ensures BalanceOf(old(balances), caller) < value ==>
        r == Err(BalanceTooLow) && balances == old(balances) && events == old(events)
      ensures value <= BalanceOf(old(balances), caller) ==>
        var moved := DebitThenCredit(old(balances), caller, to, value);
        (moved.None? ==>
           r == Err(Overflow) && events == old(events) &&
           balances == old(balances)[caller := BalanceOf(old(balances), caller) - value]) &&
        (moved.Some? ==> r == Ok && balances == moved.value && events == old(events) + [Event.Transfer(caller, to, value)])
      ensures old(Valid()) ==> Valid() && r != Err(Overflow)
    {
      r := TransferFromTo(caller, to, value);
    }

    /**
     * `transfer_from`: `AllowanceTooLow` unless the allowance stored under
     * `(caller, from)` covers `value`; then the transfer, whose error is
     * returned before the allowance is touched; on success that same entry
     * drops by `value`.
     */
    method TransferFrom(caller: AccountId, from: AccountId, to: AccountId, value: Balance) returns (r: Outcome<Error>)
      modifies this`balances, this`allowances, this`events
      ensures AllowanceOf(old(allowances), caller, from) < value ==>
        r == Err(AllowanceTooLow) && balances == old(balances) && allowances == old(allowances) && events == old(events)
      ensures value <= AllowanceOf(old(allowances), caller, from) && BalanceOf(old(balances), from) < value ==>
        r == Err(BalanceTooLow) && balances == old(balances) && allowances == old(allowances) && events == old(events)
      ensures value <= AllowanceOf(old(allowances), caller, from) && value <= BalanceOf(old(balances), from) ==>
        var moved := DebitThenCredit(old(balances), from, to, value);
        (moved.None? ==>
           r == Err(Overflow) && allowances == old(allowances) && events == old(events) &&
           balances == old(balances)[from := BalanceOf(old(balances), from) - value]) &&
        (moved.Some? ==>
           r == Ok && balances == moved.value &&
           allowances == old(allowances)[(caller, from) := AllowanceOf(old(allowances), caller, from) - value] &&
           events == old(events) + [Event.Transfer(from, to, value)])
      ensures old(Valid()) ==> Valid() && r != Err(Overflow)
    {
      var allowance := AllowanceOf(allowances, caller, from);
      if allowance < value {
        return Err(AllowanceTooLow);
      }
      r := TransferFromTo(from, to, value);
      if r != Ok {
        return r;
      }
      allowances := allowances[(caller, from) := allowance - value];
    }

    /** `approve`: overwrites the allowance `(caller, spender)` and emits `Approval`. */
    method Approve(caller: AccountId, spender: AccountId, value: Balance) returns (r: Outcome<Error>)
      modifies this`allowances, this`events
      ensures r == Ok
      ensures allowances == old(allowances)[(caller, spender) := value]
      ensures events == old(events) + [Approval(caller, spender, value)]
    {
      allowances := allowances[(caller, spender) := value];
      events := events + [Approval(caller, spender, value)];
      r := Ok;
    }
  }
}

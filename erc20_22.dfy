/**
 * The ERC-20 contract of homework-6/22, whose messages answer with a `bool`.
 * `transfer` emits its `Transfer` event before it tries the move, and
 * `transfer_from` spends the allowance and emits the event before it; a
 * move that fails answers `false` and keeps those writes. The move reads
 * both balances before writing, so a transfer to oneself adds `value` to
 * the balance. The credit `to_balance + value` is unchecked: its overflow
 * traps, which reverts the whole call.
 */
module Erc20v22 {
  import opened Common
  import opened MapSum
  import opened Token

  datatype Event =
    | Transfer(from: Option<AccountId>, to: Option<AccountId>, value: Balance)
    | Approval(owner: AccountId, spender: AccountId, value: Balance)

  /** A message's answer, or a trap that reverts the call. */
  datatype Reply = Returned(ok: bool) | Trapped

  /** What a successful move does to the sum of balances: nothing, unless it is a self-transfer. */
  function SumAfterMove(sum: nat, from: AccountId, to: AccountId, value: Balance): nat
  {
    if from == to then sum + value else sum
  }

  class Erc20 {
    const totalSupply: Balance
    var balances: Balances
    var allowances: Allowances
    var events: seq<Event>

    /** `new(total_supply)`: the caller holds the supply; a mint event. */
    constructor (caller: AccountId, totalSupply: Balance)
      ensures this.totalSupply == totalSupply
      ensures balances == map[caller := totalSupply] && allowances == map[]
      ensures events == [Event.Transfer(None, Some(caller), totalSupply)]
    {
      this.totalSupply := totalSupply;
      balances := map[caller := totalSupply];
      allowances := map[];
      events := [Event.Transfer(None, Some(caller), totalSupply)];
    }

    /**
     * `transfer_from_to`: `false` with nothing written when the balance is
     * short; otherwise both balances are read, `from` is written, then `to`
     * with the unchecked sum.
     */
    method TransferFromTo(from: AccountId, to: AccountId, value: Balance) returns (r: Reply)
      modifies this`balances
      ensures BalanceOf(old(balances), from) < value ==> r == Returned(false) && balances == old(balances)
      ensures value <= BalanceOf(old(balances), from) ==>
        var moved := SnapshotMove(old(balances), from, to, value);
        (moved.None? ==> r == Trapped && balances == old(balances)) &&
        (moved.Some? ==> r == Returned(true) && balances == moved.value)
      ensures r == Returned(true) ==> Sum(balances) == SumAfterMove(Sum(old(balances)), from, to, value)
    {
      var b0 := balances;
      var fromBalance := BalanceOf(balances, from);
      if fromBalance < value {
        return Returned(false);
      }
      var toBalance := BalanceOf(balances, to);
      balances := balances[from := fromBalance - value];
      if toBalance + value > U128_MAX {
        balances := b0;
        return Trapped;
      }
      balances := balances[to := toBalance + value];
      SnapshotMoveEffect(b0, from, to, value);
      r := Returned(true);
    }

    /** `transfer`: emits `Transfer`, then moves from the caller; the event stays when the move answers `false`. */
    method Transfer(caller: AccountId, to: AccountId, value: Balance) returns (r: Reply)
      modifies this`balances, this`events
      ensures BalanceOf(old(balances), caller) < value ==>
        r == Returned(false) && balances == old(balances) && events == old(events) + [Event.Transfer(Some(caller), Some(to), value)]
      ensures value <= BalanceOf(old(balances), caller) ==>
        var moved := SnapshotMove(old(balances), caller, to, value);
        (moved.None? ==> r == Trapped && balances == old(balances) && events == old(events)) &&
        (moved.Some? ==> r == Returned(true) && balances == moved.value && events == old(events) + [Event.Transfer(Some(caller), Some(to), value)])
      ensures r == Returned(true) ==> Sum(balances) == SumAfterMove(Sum(old(balances)), caller, to, value)
    {
      var e0 := events;
      events := events + [Event.Transfer(Some(caller), Some(to), value)];
      r := TransferFromTo(caller, to, value);
      if r == Trapped {
        events := e0;
      }
    }

    /** `approve`: overwrites the allowance `(caller, spender)`, emits `Approval`, answers `true`. */
    method Approve(caller: AccountId, spender: AccountId, value: Balance) returns (r: Reply)
      modifies this`allowances, this`events
      ensures r == Returned(true)
      ensures allowances == old(allowances)[(caller, spender) := value]
      ensures events == old(events) + [Approval(caller, spender, value)]
    {
      allowances := allowances[(caller, spender) := value];
      events := events + [Approval(caller, spender, value)];
      r := Returned(true);
    }

    /**
     * `transfer_from`: `false` when the caller's allowance from `from` is
     * short; otherwise the allowance is reduced and the event emitted before
     * the move, and neither is undone when the move answers `false`.
     */
    method TransferFrom(caller: AccountId, from: AccountId, to: AccountId, value: Balance) returns (r: Reply)
      modifies this`balances, this`allowances, this`events
      ensures AllowanceOf(old(allowances), from, caller) < value ==>
        r == Returned(false) && balances == old(balances) && allowances == old(allowances) && events == old(events)
      ensures value <= AllowanceOf(old(allowances), from, caller) ==>
        var spent := old(allowances)[(from, caller) := AllowanceOf(old(allowances), from, caller) - value];
        var emitted := old(events) + [Event.Transfer(Some(from), Some(to), value)];
        (BalanceOf(old(balances), from) < value ==>
          r == Returned(false) && balances == old(balances) && allowances == spent && events == emitted) &&
        (value <= BalanceOf(old(balances), from) ==>
          var moved := SnapshotMove(old(balances), from, to, value);
          (moved.None? ==> r == Trapped && balances == old(balances) && allowances == old(allowances) && events == old(events)) &&
          (moved.Some? ==> r == Returned(true) && balances == moved.value && allowances == spent && events == emitted))
    {
      var a0, e0 := allowances, events;
      var allowance := AllowanceOf(allowances, from, caller);
      if allowance < value {
        return Returned(false);
      }
      allowances := allowances[(from, caller) := allowance - value];
      events := events + [Event.Transfer(Some(from), Some(to), value)];
      r := TransferFromTo(from, to, value);
      if r == Trapped {
        allowances, events := a0, e0;
      }
    }
  }
}

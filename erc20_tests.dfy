/**
 * The unit tests of the ERC-20 contracts replayed on the model, with the
 * default test accounts alice = 1, bob = 2 and eve = 5 (homework-6/22's
 * tests also use the all-zero account 0), and scenarios that exhibit how
 * the contracts differ.
 */
module Erc20Tests {
  import opened Common
  import opened Token
  import Std = Erc20Std
  import V22 = Erc20v22
  import V640 = Erc20v640
  import V629 = Erc20v629
  import V597 = Erc20v597

  const Alice: AccountId := 1
  const Bob: AccountId := 2
  const Eve: AccountId := 5

  // ---------------------------------------------------------------------
  // homework-6/658, homework-6/677, homework-6/693
  // ---------------------------------------------------------------------

  /** `new_works`, `balance_of_works`: one mint event; alice holds 100, bob nothing. */
  method StdNew() returns (events: seq<Std.Event>, supply: Balance, alice: Balance, bob: Balance)
    ensures events == [Std.Transfer(None, Some(Alice), 100)]
    ensures supply == 100 && alice == 100 && bob == 0
  {
    var t := new Std.Erc20(Alice, 100);
    events := t.events;
    supply := t.TotalSupply();
    alice := BalanceOf(t.balances, Alice);
    bob := BalanceOf(t.balances, Bob);
  }

  /** `transfer_works`: alice sends bob 10; two events, the second the transfer. */
  method StdTransfer() returns (r: Outcome<Std.Error>, bob: Balance, events: seq<Std.Event>)
    ensures r == Ok && bob == 10
    ensures events == [Std.Transfer(None, Some(Alice), 100), Std.Transfer(Some(Alice), Some(Bob), 10)]
  {
    var t := new Std.Erc20(Alice, 100);
    r := t.Transfer(Alice, Bob, 10);
    bob := BalanceOf(t.balances, Bob);
    events := t.events;
  }

  /** `invalid_transfer_should_fail`: bob, holding nothing, cannot send eve 10; nothing changes. */
  method StdInvalidTransfer() returns (r: Outcome<Std.Error>, alice: Balance, bob: Balance, eve: Balance, count: nat)
    ensures r == Err(Std.InsufficientBalance)
    ensures alice == 100 && bob == 0 && eve == 0 && count == 1
  {
    var t := new Std.Erc20(Alice, 100);
    r := t.Transfer(Bob, Eve, 10);
    alice, bob, eve := BalanceOf(t.balances, Alice), BalanceOf(t.balances, Bob), BalanceOf(t.balances, Eve);
    count := |t.events|;
  }

  /**
   * `transfer_from_works`: without an allowance the call fails; after alice
   * approves bob for 10, bob moves 10 from alice to eve; three events.
   */
  method StdTransferFrom() returns (r1: Outcome<Std.Error>, r2: Outcome<Std.Error>, eve: Balance, events: seq<Std.Event>)
    ensures r1 == Err(Std.InsufficientAllowance) && r2 == Ok && eve == 10
    ensures |events| == 3 && events[2] == Std.Transfer(Some(Alice), Some(Eve), 10)
  {
    var t := new Std.Erc20(Alice, 100);
    r1 := t.TransferFrom(Alice, Alice, Eve, 10);
    var a := t.Approve(Alice, Bob, 10);
    r2 := t.TransferFrom(Bob, Alice, Eve, 10);
    eve := BalanceOf(t.balances, Eve);
    events := t.events;
  }

  /**
   * `allowance_must_not_change_on_failed_transfer`: bob, approved for 102,
   * asks for 101 of alice's 100; the call fails, the allowance stays 102 and
   * no event is added.
   */
  method StdFailedTransferFrom() returns (r: Outcome<Std.Error>, allowance: Balance, before: nat, after: nat)
    ensures r == Err(Std.InsufficientBalance) && allowance == 102 && before == after
  {
    var t := new Std.Erc20(Alice, 100);
    var a := t.Approve(Alice, Bob, 102);
    before := |t.events|;
    r := t.TransferFrom(Bob, Alice, Eve, 101);
    allowance := AllowanceOf(t.allowances, Alice, Bob);
    after := |t.events|;
  }

  /**
   * `e2e_allowances`: an unapproved `transfer_from` fails; after spending the
   * whole approval, one more unit fails.
   */
  method StdAllowanceExhausted() returns (r0: Outcome<Std.Error>, r1: Outcome<Std.Error>, r2: Outcome<Std.Error>, alice: Balance)
    ensures r0 == Err(Std.InsufficientAllowance)
    ensures r1 == Ok && r2 == Err(Std.InsufficientAllowance) && alice == 999_999_000
  {
    var t := new Std.Erc20(Alice, 1_000_000_000);
    r0 := t.TransferFrom(Bob, Alice, Bob, 500_000_000);
    var a := t.Approve(Alice, Bob, 1_000);
    r1 := t.TransferFrom(Bob, Alice, Bob, 1_000);
    alice := BalanceOf(t.balances, Alice);
    r2 := t.TransferFrom(Bob, Alice, Bob, 1);
  }

  /** A transfer to oneself leaves the balance as it was. */
  method StdSelfTransfer() returns (r: Outcome<Std.Error>, alice: Balance)
    ensures r == Ok && alice == 100
  {
    var t := new Std.Erc20(Alice, 100);
    r := t.Transfer(Alice, Alice, 100);
    alice := BalanceOf(t.balances, Alice);
  }

  // ---------------------------------------------------------------------
  // homework-6/22
  // ---------------------------------------------------------------------

  /** `transfer_works`: alice sends 10 to account 0; a second transfer of 100 answers `false`. */
  method V22Transfer() returns (r1: V22.Reply, zero: Balance, r2: V22.Reply)
    ensures r1 == V22.Returned(true) && zero == 10 && r2 == V22.Returned(false)
  {
    var t := new V22.Erc20(Alice, 100);
    r1 := t.Transfer(Alice, 0, 10);
    zero := BalanceOf(t.balances, 0);
    r2 := t.Transfer(Alice, 0, 100);
  }

  /** `transfer_from_works`: alice approves herself for 20 and moves 10 to account 0. */
  method V22TransferFrom() returns (r: V22.Reply, zero: Balance)
    ensures r == V22.Returned(true) && zero == 10
  {
    var t := new V22.Erc20(Alice, 100);
    var a := t.Approve(Alice, Alice, 20);
    r := t.TransferFrom(Alice, Alice, 0, 10);
    zero := BalanceOf(t.balances, 0);
  }

  /** A failed transfer still emits its `Transfer` event. */
  method V22FailedTransferEmits() returns (r: V22.Reply, events: seq<V22.Event>)
    ensures r == V22.Returned(false)
    ensures events == [V22.Transfer(None, Some(Alice), 100), V22.Transfer(Some(Bob), Some(Eve), 1)]
  {
    var t := new V22.Erc20(Alice, 100);
    r := t.Transfer(Bob, Eve, 1);
    events := t.events;
  }

  /** Alice sends herself her 100 and then holds 200. */
  method V22SelfTransfer() returns (r: V22.Reply, alice: Balance)
    ensures r == V22.Returned(true) && alice == 200
  {
    var t := new V22.Erc20(Alice, 100);
    r := t.Transfer(Alice, Alice, 100);
    alice := BalanceOf(t.balances, Alice);
  }

  /** Bob, approved for 500, asks for 300 of alice's 100: `false`, and the allowance is down to 200. */
  method V22FailedTransferFromSpends() returns (r: V22.Reply, allowance: Balance, alice: Balance)
    ensures r == V22.Returned(false) && allowance == 200 && alice == 100
  {
    var t := new V22.Erc20(Alice, 100);
    var a := t.Approve(Alice, Bob, 500);
    r := t.TransferFrom(Bob, Alice, Eve, 300);
    allowance := AllowanceOf(t.allowances, Alice, Bob);
    alice := BalanceOf(t.balances, Alice);
  }

  // ---------------------------------------------------------------------
  // homework-6/640
  // ---------------------------------------------------------------------

  /** `transfer_should_work` and `transfer_should_fault`. */
  method V640Transfer() returns (r1: Outcome<V640.Error>, alice: Balance, bob: Balance, r2: Outcome<V640.Error>)
    ensures r1 == Ok && alice == 9988 && bob == 12
    ensures r2 == Err(V640.BalanceTooLow)
  {
    var t := new V640.Erc20(Alice, 10000);
    r1 := t.Transfer(Alice, Bob, 12);
    alice, bob := BalanceOf(t.balances, Alice), BalanceOf(t.balances, Bob);
    var u := new V640.Erc20(Alice, 10000);
    r2 := u.Transfer(Bob, Alice, 12);
  }

  /** Alice sends herself her 10000 and then holds 20000, more than the total supply. */
  method V640SelfTransfer() returns (r: Outcome<V640.Error>, alice: Balance, supply: Balance)
    ensures r == Ok && alice == 20000 && supply == 10000
  {
    var t := new V640.Erc20(Alice, 10000);
    r := t.Transfer(Alice, Alice, 10000);
    alice := BalanceOf(t.balances, Alice);
    supply := t.totalSupply;
  }

  /** Bob, approved for 20000, asks for 15000 of alice's 10000: `BalanceTooLow`, allowance down to 5000. */
  method V640FailedTransferFromSpends() returns (r: Outcome<V640.Error>, allowance: Balance)
    ensures r == Err(V640.BalanceTooLow) && allowance == 5000
  {
    var t := new V640.Erc20(Alice, 10000);
    var a := t.Approve(Alice, Bob, 20000);
    r := t.TransferFrom(Bob, Alice, Bob, 15000);
    allowance := AllowanceOf(t.allowances, Alice, Bob);
  }

  // ---------------------------------------------------------------------
  // homework-6/629
  // ---------------------------------------------------------------------

  /** `transfer_works`: bob receives 500 and exactly one event has been emitted. */
  method V629Transfer() returns (r: Outcome<V629.Error>, bob: Balance, events: seq<V629.Event>)
    ensures r == Ok && bob == 500 && events == [V629.Transfer(Alice, Bob, 500)]
  {
    var t := new V629.Erc20(Alice, 2000);
    r := t.Transfer(Alice, Bob, 500);
    bob := BalanceOf(t.balances, Bob);
    events := t.events;
  }

  /** `transfer_overflow`: sending 2000 of 100 fails and leaves both balances. */
  method V629TooMuch() returns (r: Outcome<V629.Error>, alice: Balance, bob: Balance)
    ensures r == Err(V629.BalanceTooLow) && alice == 100 && bob == 0
  {
    var t := new V629.Erc20(Alice, 100);
    r := t.Transfer(Alice, Bob, 2000);
    alice, bob := BalanceOf(t.balances, Alice), BalanceOf(t.balances, Bob);
  }

  /** `approve_works` and `approve_failed`. */
  method V629Approve() returns (allowance: Balance, events: seq<V629.Event>, r: Outcome<V629.Error>)
    ensures allowance == 1000 && events == [V629.Approval(Alice, Bob, 1000)]
    ensures r == Err(V629.AllowanceTooLow)
  {
    var t := new V629.Erc20(Alice, 2000);
    var a := t.Approve(Alice, Bob, 1000);
    allowance := t.AllowancesOf(Alice, Bob);
    events := t.events;
    var u := new V629.Erc20(Alice, 2000);
    a := u.Approve(Alice, Bob, 100);
    r := u.TransferFrom(Alice, Alice, Bob, 500);
  }

  /**
   * Alice gives bob 300 and approves him for 100. Bob cannot use that
   * approval on alice's tokens, but alice can take 100 of bob's.
   */
  method V629ApproverDrawsOnSpender() returns (byBob: Outcome<V629.Error>, byAlice: Outcome<V629.Error>, alice: Balance, bob: Balance)
    ensures byBob == Err(V629.AllowanceTooLow) && byAlice == Ok
    ensures alice == 1800 && bob == 200
  {
    var t := new V629.Erc20(Alice, 2000);
    var r := t.Transfer(Alice, Bob, 300);
    r := t.Approve(Alice, Bob, 100);
    byBob := t.TransferFrom(Bob, Alice, Bob, 50);
    byAlice := t.TransferFrom(Alice, Bob, Alice, 100);
    alice, bob := BalanceOf(t.balances, Alice), BalanceOf(t.balances, Bob);
  }

  // ---------------------------------------------------------------------
  // homework-6/597
  // ---------------------------------------------------------------------

  /** `transfer_works_and_emits_event`: 40 of 100 leaves 60 and 40. */
  method V597Transfer() returns (r: Outcome<V597.Error>, alice: Balance, bob: Balance, events: seq<V597.Event>)
    ensures r == Ok && alice == 60 && bob == 40 && events == [V597.Transfer(Alice, Bob, 40)]
  {
    var t := new V597.Erc20(Alice, 100);
    r := t.Transfer(Alice, Bob, 40);
    alice, bob := BalanceOf(t.balances, Alice), BalanceOf(t.balances, Bob);
    events := t.events;
  }

  /** Alice sends herself her 100 and then holds 200. */
  method V597SelfTransfer() returns (r: Outcome<V597.Error>, alice: Balance)
    ensures r == Ok && alice == 200
  {
    var t := new V597.Erc20(Alice, 100);
    r := t.Transfer(Alice, Alice, 100);
    alice := BalanceOf(t.balances, Alice);
  }

  /** Bob, approved for 500, asks for 300 of alice's 100: `BalanceTooLow`, allowance down to 200. */
  method V597FailedTransferFromSpends() returns (r: Outcome<V597.Error>, allowance: Balance, alice: Balance)
    ensures r == Err(V597.BalanceTooLow) && allowance == 200 && alice == 100
  {
    var t := new V597.Erc20(Alice, 100);
    var a := t.Approve(Alice, Bob, 500);
    r := t.TransferFrom(Bob, Alice, Eve, 300);
    allowance := AllowanceOf(t.allowances, Alice, Bob);
    alice := BalanceOf(t.balances, Alice);
  }
}

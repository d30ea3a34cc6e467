/**
 * The currency the kitties pallets are configured with (`pallet_balances`
 * behind the `Currency` and `ReservableCurrency` traits), reduced to what the
 * pallets use: a free and a reserved balance per account, `reserve`,
 * `unreserve` and a keep-alive `transfer`. Balances are unbounded here.
 */
module Ledger {
  import opened Common
  import opened MapSum

  datatype LedgerError =
    | InsufficientBalance   // `reserve`: the free balance does not cover the amount
    | FundsUnavailable      // `transfer`: the sender's free balance does not cover the amount
    | NotExpendable         // `transfer`: the sender's free balance would end below the existential deposit
    | BelowMinimum          // `transfer`: the recipient's free balance would end below the existential deposit

  datatype Balances = Balances(free: map<AccountId, nat>, reserved: map<AccountId, nat>, ed: nat)

  function Free(b: Balances, a: AccountId): nat { GetOrZero(b.free, a) }

  function Reserved(b: Balances, a: AccountId): nat { GetOrZero(b.reserved, a) }

  /** All value held by all accounts, free or reserved. */
  ghost function Total(b: Balances): nat { Sum(b.free) + Sum(b.reserved) }

  /** Two ledgers that agree on every account's free and reserved balance. */
  ghost predicate SameHoldings(b: Balances, c: Balances)
  {
    b.ed == c.ed &&
    (forall a :: Free(b, a) == Free(c, a)) &&
    (forall a :: Reserved(b, a) == Reserved(c, a))
  }

  /**
   * `reserve(who, amount)`: moves `amount` from free to reserved, and fails
   * with `InsufficientBalance`, changing nothing, when the free balance is
   * smaller. Reserving nothing always succeeds.
   */
  function Reserve(b: Balances, who: AccountId, amount: nat): (r: Result<Balances, LedgerError>)
    ensures r.Success? <==> amount <= Free(b, who)
    ensures r.Failure? ==> r.error == InsufficientBalance
    ensures r.Success? ==> Free(r.value, who) + amount == Free(b, who)
    ensures r.Success? ==> Reserved(r.value, who) == Reserved(b, who) + amount
    ensures r.Success? ==> r.value.ed == b.ed
    ensures r.Success? ==> forall a :: a != who ==> Free(r.value, a) == Free(b, a) && Reserved(r.value, a) == Reserved(b, a)
  {
    if amount == 0 then Success(b)
    else if amount <= Free(b, who) then
      Success(b.(free := b.free[who := Free(b, who) - amount],
                 reserved := b.reserved[who := Reserved(b, who) + amount]))
    else Failure(InsufficientBalance)
  }

  /**
   * `unreserve(who, amount)`: moves back as much of `amount` as is reserved;
   * it cannot fail, and the part that is not reserved is ignored.
   */
  function Unreserve(b: Balances, who: AccountId, amount: nat): (r: Balances)
    ensures var moved := if amount <= Reserved(b, who) then amount else Reserved(b, who);
            Free(r, who) == Free(b, who) + moved && Reserved(r, who) + moved == Reserved(b, who)
    ensures r.ed == b.ed
    ensures forall a :: a != who ==> Free(r, a) == Free(b, a) && Reserved(r, a) == Reserved(b, a)
  {
    var moved := if amount <= Reserved(b, who) then amount else Reserved(b, who);
    if moved == 0 then b
    else b.(free := b.free[who := Free(b, who) + moved],
            reserved := b.reserved[who := Reserved(b, who) - moved])
  }

  /**
   * `transfer(from, to, amount, KeepAlive)`, which `pallet_balances` runs as
   * a fungible transfer with `Preservation::Preserve`. A zero amount or a
   * transfer to oneself succeeds without effect. Otherwise the sender is
   * checked first: its free balance must cover the amount and keep at least
   * the existential deposit afterwards (reserved balance does not count);
   * then the recipient's free balance plus the amount must reach the
   * existential deposit.
   */
  function Transfer(b: Balances, from: AccountId, to: AccountId, amount: nat): (r: Result<Balances, LedgerError>)
    ensures r.Failure? <==>
      amount > 0 && from != to &&
      (Free(b, from) < amount || Free(b, from) - amount < b.ed || Free(b, to) + amount < b.ed)
    ensures r.Failure? && Free(b, from) < amount ==> r.error == FundsUnavailable
    ensures r.Failure? && amount <= Free(b, from) && Free(b, from) - amount < b.ed ==> r.error == NotExpendable
    ensures r.Failure? && amount <= Free(b, from) && b.ed <= Free(b, from) - amount ==> r.error == BelowMinimum
    ensures r.Success? && from != to ==>
      Free(r.value, from) + amount == Free(b, from) && Free(r.value, to) == Free(b, to) + amount
    ensures r.Success? ==> b.ed <= Free(r.value, from) || amount == 0 || from == to
    ensures r.Success? ==> r.value.ed == b.ed && r.value.reserved == b.reserved
    ensures r.Success? ==> forall a :: a != from && a != to ==> Free(r.value, a) == Free(b, a)
  {
    if amount == 0 || from == to then Success(b)
    else if Free(b, from) < amount then Failure(FundsUnavailable)
    else if Free(b, from) - amount < b.ed then Failure(NotExpendable)
    else if Free(b, to) + amount < b.ed then Failure(BelowMinimum)
    else Success(b.(free := b.free[from := Free(b, from) - amount][to := Free(b, to) + amount]))
  }

  /** Reserving moves value between the two columns and creates none. */
  lemma {:induction false} ReserveKeepsTotal(b: Balances, who: AccountId, amount: nat)
    requires Reserve(b, who, amount).Success?
    ensures Total(Reserve(b, who, amount).value) == Total(b)
  {
    if amount > 0 {
      SumUpdate(b.free, who, Free(b, who) - amount);
      SumUpdate(b.reserved, who, Reserved(b, who) + amount);
    }
  }

  /** Unreserving moves value between the two columns and creates none. */
  lemma {:induction false} UnreserveKeepsTotal(b: Balances, who: AccountId, amount: nat)
    ensures Total(Unreserve(b, who, amount)) == Total(b)
  {
    var moved := if amount <= Reserved(b, who) then amount else Reserved(b, who);
    if moved > 0 {
      SumUpdate(b.free, who, Free(b, who) + moved);
      SumUpdate(b.reserved, who, Reserved(b, who) - moved);
    }
  }

  /** A transfer moves value between accounts and creates none. */
  lemma {:induction false} TransferKeepsTotal(b: Balances, from: AccountId, to: AccountId, amount: nat)
    requires Transfer(b, from, to, amount).Success?
    ensures Total(Transfer(b, from, to, amount).value) == Total(b)
  {
    if amount > 0 && from != to {
      SumMove(b.free, from, to, amount);
      var m1 := b.free[from := Free(b, from) - amount];
      assert GetOrZero(m1, to) == Free(b, to);
    }
  }

  /** Releasing what was just reserved gives every account its old balances back. */
  lemma ReserveThenUnreserve(b: Balances, who: AccountId, amount: nat)
    requires Reserve(b, who, amount).Success?
    ensures SameHoldings(Unreserve(Reserve(b, who, amount).value, who, amount), b)
  {
  }
}

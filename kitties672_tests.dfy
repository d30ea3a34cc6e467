/**
 * The sale scenario of homework-3/672's tests, replayed on the model: two
 * escrowed bids of 100 and 130 on a kitty listed until block 10; the sweep
 * at block 10 hands the kitty to the higher bidder and removes the listing.
 */
module Kitties672Tests {
  import opened Common
  import opened Ledger
  import opened Dna
  import opened Kitties672

  /** The balances once both bids are escrowed. */
  function Escrowed(): Balances
  {
    Balances(map[2 := 100, 3 := 70], map[2 := 100, 3 := 130], 5)
  }

  /** Block 1: account 1 creates kitty 0 and lists it until block 10. */
  method ListKitty(dna: Dna) returns (p: Pallet)
    ensures fresh(p)
    ensures p.block == 1 && p.onSale == map[0 := 10] && p.owner == map[0 := 1] && p.bids == map[]
    ensures p.balances == Balances(map[2 := 200, 3 := 200], map[], 5)
  {
    p := new Pallet(Balances(map[2 := 200, 3 := 200], map[], 5), 1);
    SweepWithoutDueListings(p.State(), 1, []);
    var ok := p.Tick([]);
    assert p.block == 1 && p.onSale == map[] && p.owner == map[] && p.nextKittyId == 0;
    var r := p.Create(1, dna);
    assert p.owner == map[0 := 1];
    r := p.Sale(1, 0, 10);
  }

  /** Block 2: bids of 100 by account 2 and of 130 by account 3, both escrowed. */
  method SetUp(dna: Dna) returns (p: Pallet)
    ensures fresh(p)
    ensures p.block == 2 && p.onSale == map[0 := 10] && p.owner == map[0 := 1]
    ensures p.bids == map[0 := [BidEntry(2, 100), BidEntry(3, 130)]]
    ensures p.balances == Escrowed()
  {
    p := ListKitty(dna);
    SweepWithoutDueListings(p.State(), 2, [0]);
    var ok := p.Tick([0]);
    assert Reserve(p.balances, 2, 100).Success?;
    assert BidsOf(map[], 0) + [BidEntry(2, 100)] == [BidEntry(2, 100)];
    var r := p.Bid(2, 0, 100);
    assert p.bids == map[0 := [BidEntry(2, 100)]];
    assert Reserve(p.balances, 3, 130).Success?;
    assert BidsOf(p.bids, 0) + [BidEntry(3, 130)] == [BidEntry(2, 100), BidEntry(3, 130)];
    r := p.Bid(3, 0, 130);
  }

  method SaleScenario(dna: Dna) returns (newOwner: Option<AccountId>, listed: bool, sellerFree: nat)
    ensures newOwner == Some(3) && !listed && sellerFree == 130
  {
    var p := SetUp(dna);
    while p.block < 9
      invariant 2 <= p.block <= 9
      invariant p.onSale == map[0 := 10] && p.owner == map[0 := 1]
      invariant p.bids == map[0 := [BidEntry(2, 100), BidEntry(3, 130)]]
      invariant p.balances == Escrowed()
    {
      SweepWithoutDueListings(p.State(), p.block + 1, [0]);
      var ok := p.Tick([0]);
    }
    var s := p.State();
    SettleScenario(s);
    var ok := p.Tick([0]);
    newOwner := if 0 in p.owner then Some(p.owner[0]) else None;
    listed := 0 in p.onSale;
    sellerFree := Free(p.balances, 1);
  }

  /** The sweep at block 10 on the escrowed listing. */
  lemma SettleScenario(s: Storage)
    requires s.onSale == map[0 := 10] && s.owner == map[0 := 1]
    requires s.bids == map[0 := [BidEntry(2, 100), BidEntry(3, 130)]]
    requires s.balances == Escrowed()
    ensures Sweep(s, 10, [0]).Some?
    ensures Sweep(s, 10, [0]).value.owner == map[0 := 3]
    ensures Sweep(s, 10, [0]).value.onSale == map[]
    ensures Free(Sweep(s, 10, [0]).value.balances, 1) == 130
  {
    var bids := s.bids[0];
    assert bids[..1] == [BidEntry(2, 100)];
    assert bids[..1][..0] == [];
    assert Best(bids) == (Some(3), 130);
    var first := Unreserve(s.balances, 2, 100);
    assert RefundAll(s.balances, bids[..1]) == first;
    var refunded := Unreserve(first, 3, 130);
    assert RefundAll(s.balances, bids) == refunded;
    assert Free(refunded, 3) == 200 && Reserved(refunded, 3) == 0;
    assert Free(refunded, 1) == 0 && Reserved(refunded, 1) == 0;
    assert [0][..0] == [];
  }
}

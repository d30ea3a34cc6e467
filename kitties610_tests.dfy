/**
 * A sale on homework-3/610's pallet: because bids are inserted at the front
 * while `bid` and `transfer` read the last entry, a bid only has to beat the
 * EARLIEST bid, and completing the sale sells to the earliest bidder at the
 * earliest price, whatever higher bids came later.
 */
module Kitties610Tests {
  import opened Common
  import opened Ledger
  import opened Dna
  import opened Kitties610

  /** Account 1 owns kitty 0, listed until block 5; accounts 2, 3, 4 hold 100 each. */
  method Listed(dna: Dna) returns (p: Pallet)
    ensures fresh(p)
    ensures p.block == 0 && p.owner == map[0 := 1] && p.onSale == map[0 := 5] && p.bids == map[]
    ensures p.balances == Balances(map[2 := 100, 3 := 100, 4 := 100], map[], 1)
  {
    p := new Pallet(Balances(map[2 := 100, 3 := 100, 4 := 100], map[], 1));
    var r := p.Create(1, dna);
    r := p.Sale(1, 0, 5);
  }

  /** Bids of 10 by account 2, 20 by account 3, then 15 by account 4: all three are accepted. */
  method ThreeBids(dna: Dna) returns (p: Pallet, r1: Outcome<Error>, r2: Outcome<Error>, r3: Outcome<Error>)
    ensures fresh(p)
    ensures r1 == Ok && r2 == Ok && r3 == Ok
    ensures p.block == 0 && p.owner == map[0 := 1] && p.onSale == map[0 := 5]
    ensures p.bids == map[0 := [BidEntry(4, 15), BidEntry(3, 20), BidEntry(2, 10)]]
    ensures p.balances == Balances(map[2 := 100, 3 := 100, 4 := 100], map[], 1)
  {
    p := Listed(dna);
    r1 := p.Bid(2, 0, 10);
    assert p.bids == map[0 := [BidEntry(2, 10)]];
    r2 := p.Bid(3, 0, 20);
    assert [BidEntry(3, 20)] + [BidEntry(2, 10)] == [BidEntry(3, 20), BidEntry(2, 10)];
    assert p.bids == map[0 := [BidEntry(3, 20), BidEntry(2, 10)]];
    assert Last(p.bids[0]) == BidEntry(2, 10);
    assert [BidEntry(4, 15)] + [BidEntry(3, 20), BidEntry(2, 10)] == [BidEntry(4, 15), BidEntry(3, 20), BidEntry(2, 10)];
    r3 := p.Bid(4, 0, 15);
  }

  /** After block 5 the owner completes the sale: the kitty goes to account 2 for 10. */
  method SaleToEarliestBidder(dna: Dna) returns (buyer: AccountId, sellerFree: nat, stillListed: bool)
    ensures buyer == 2 && sellerFree == 10 && !stillListed
  {
    var p, r1, r2, r3 := ThreeBids(dna);
    while p.block < 6
      invariant p.block <= 6
      invariant p.owner == map[0 := 1] && p.onSale == map[0 := 5]
      invariant p.bids == map[0 := [BidEntry(4, 15), BidEntry(3, 20), BidEntry(2, 10)]]
      invariant p.balances == Balances(map[2 := 100, 3 := 100, 4 := 100], map[], 1)
    {
      p.Tick();
    }
    assert Last(p.bids[0]) == BidEntry(2, 10);
    var r := p.Transfer(1, 0);
    buyer := p.owner[0];
    sellerFree := Free(p.balances, 1);
    stillListed := 0 in p.onSale;
  }
}

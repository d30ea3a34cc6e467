/**
 * On homework-3/676's pallet with room for one bid: a second, higher bid is
 * accepted, its entry is dropped because the list is full, and the recorded
 * highest price is raised all the same, so the price no longer belongs to
 * any stored bid.
 */
module Kitties676Tests {
  import opened Common
  import opened Dna
  import opened Kitties676

  method FullBidListDropsEntry(dna: Dna) returns (r1: Outcome<Error>, r2: Outcome<Error>, entries: seq<BidEntry>, highest: u64)
    ensures r1 == Ok && r2 == Ok
    ensures entries == [BidEntry(2, 10)] && highest == 20
  {
    var p := new Pallet(1);
    var r := p.Create(1, dna);
    r := p.Sale(1, 1, 0, 5);
    assert p.kittiesBid == map[0 := []] && p.maxBindValue == map[0 := 0];
    assert p.Entries(0) == [] && p.MaxValue(0) == 0;
    assert TryPush([], BidEntry(2, 10), 1) == [BidEntry(2, 10)];
    r1 := p.Bid(2, 0, 10);
    assert p.kittiesBid == map[0 := [BidEntry(2, 10)]];
    assert p.Entries(0) == [BidEntry(2, 10)] && p.MaxValue(0) == 10;
    r2 := p.Bid(3, 0, 20);
    entries := p.kittiesBid[0];
    highest := p.maxBindValue[0];
  }

  /** Once an auction's end block has passed, `sale` fails with `SaleIsEnd` for good. */
  method EndedAuctionCannotRestart(dna: Dna) returns (r: Outcome<Error>)
    ensures r == Err(SaleIsEnd)
  {
    var p := new Pallet(4);
    r := p.Create(1, dna);
    r := p.Sale(1, 1, 0, 2);
    p.Tick();
    p.Tick();
    r := p.Sale(1, 1, 0, 10);
  }
}

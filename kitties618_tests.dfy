/**
 * The tests of homework-4/618 replayed on the model, with the mock runtime's
 * constants: existential deposit 1, `KittyStake` 200, `MaxPrices` 64, and
 * accounts 0..3 endowed with 10_000_000_000 each.
 */
module Kitties618Tests {
  import opened Common
  import opened Ledger
  import opened Dna
  import opened Kitties618

  const G: nat := 10_000_000_000

  function Endowed(): map<AccountId, nat>
  {
    map[0 := G, 1 := G, 2 := G, 3 := G]
  }

  /** `new_test_ext`: genesis, with the block number set to 1. */
  method NewTestExt() returns (p: Pallet)
    ensures fresh(p) && p.Valid()
    ensures p.State() == Storage(0, map[], map[], map[], map[], Balances(Endowed(), map[], 1))
    ensures p.stake == 200 && p.maxPrices == 64 && p.block == 1 && p.prices == []
  {
    p := new Pallet(Endowed(), 1, 200, 64);
    p.block := 1;
  }

  /** `create` reserves the stake and makes the caller owner of kitty 0. */
  method CreateKitty(dna: Dna) returns (p: Pallet, r: Outcome<Error>)
    ensures fresh(p) && p.Valid()
    ensures r == Ok && p.owner == map[0 := 0] && p.nextKittyId == 1
    ensures p.kitties == map[0 := Kitty(dna, 100)] && p.onSale == map[] && p.bid == map[]
    ensures p.balances == Balances(map[0 := G - 200, 1 := G, 2 := G, 3 := G], map[0 := 200], 1)
    ensures p.stake == 200 && p.block == 1
  {
    p := NewTestExt();
    assert Reserve(p.balances, 0, 200).Success?;
    r := p.CreateWithStake(0, dna, 100);
    assert p.balances.free == map[0 := G - 200, 1 := G, 2 := G, 3 := G];
  }

  /** With `NextKittyId` at `u32::MAX`, `create` fails with `KittyIdOverflow` and changes nothing. */
  method CreateOverflow(dna: Dna) returns (r: Outcome<Error>, unchangedStorage: bool)
    ensures r == Err(KittyIdOverflow) && unchangedStorage
  {
    var p := NewTestExt();
    p.nextKittyId := U32_MAX;
    var before := p.State();
    assert Reserve(p.balances, 0, 200).Success?;
    r := p.CreateWithStake(0, dna, 100);
    unchangedStorage := p.State() == before;
  }

  /** An account without funds cannot stake. */
  method CreateUnfunded(dna: Dna) returns (r: Outcome<Error>)
    ensures r == Err(NotEnoughForStaking)
  {
    var p := NewTestExt();
    r := p.CreateWithStake(5, dna, 100);
  }

  /** `breed(0, 1)` by the owner of both creates kitty 2 for the caller and reserves a third stake. */
  method BreedOwnKitties(dna0: Dna, dna1: Dna, selector: Dna) returns (r: Outcome<Error>, childOwner: AccountId, next: nat, reserved: nat)
    ensures r == Ok && childOwner == 0 && next == 3 && reserved == 600
  {
    var p, r0 := CreateKitty(dna0);
    assert Reserve(p.balances, 0, 200).Success?;
    r0 := p.CreateWithStake(0, dna1, 100);
    assert Reserve(p.balances, 0, 200).Success?;
    r := p.Breed(0, 0, 1, 100, selector);
    childOwner := p.owner[2];
    next := p.nextKittyId;
    reserved := Reserved(p.balances, 0);
  }

  /** `breed` of a kitty the caller does not own fails with `NotOwner`. */
  method BreedNotOwner(dna0: Dna, dna1: Dna, selector: Dna) returns (r: Outcome<Error>)
    ensures r == Err(NotOwner)
  {
    var p, r0 := CreateKitty(dna0);
    assert Reserve(p.balances, 1, 200).Success?;
    r0 := p.CreateWithStake(1, dna1, 100);
    r := p.Breed(0, 0, 1, 100, selector);
  }

  /** `transfer` moves the kitty and its stake: the recipient reserves 200, the sender gets 200 back. */
  method TransferMovesStake(dna: Dna) returns (r: Outcome<Error>, newOwner: AccountId, freeTo: nat, reservedTo: nat, reservedFrom: nat)
    ensures r == Ok && newOwner == 1 && freeTo == G - 200 && reservedTo == 200 && reservedFrom == 0
  {
    var p, r0 := CreateKitty(dna);
    assert Reserve(p.balances, 1, 200).Success?;
    r := p.Transfer(0, 0, 1);
    newOwner := p.owner[0];
    freeTo := Free(p.balances, 1);
    reservedTo := Reserved(p.balances, 1);
    reservedFrom := Reserved(p.balances, 0);
  }

  /** The failing transfers: missing kitty, foreign kitty, to oneself, unfunded recipient. */
  method TransferFailures(dna: Dna) returns (r1: Outcome<Error>, r2: Outcome<Error>, r3: Outcome<Error>, r4: Outcome<Error>)
    ensures r1 == Err(InvalidKittyId) && r2 == Err(NotOwner) && r3 == Err(TransferToSelf) && r4 == Err(NotEnoughForStaking)
  {
    var p, r0 := CreateKitty(dna);
    r1 := p.Transfer(0, 1, 1);
    r2 := p.Transfer(1, 0, 2);
    r3 := p.Transfer(0, 0, 0);
    r4 := p.Transfer(0, 0, 7);
  }

  /** Block 2: kitty 0 listed until block 10 with floor price 20. */
  method Listed(dna: Dna) returns (p: Pallet)
    ensures fresh(p) && p.Valid()
    ensures p.owner == map[0 := 0] && p.onSale == map[0 := Listing(10, 20)] && p.bid == map[]
    ensures p.balances == Balances(map[0 := G - 200, 1 := G, 2 := G, 3 := G], map[0 := 200], 1)
    ensures p.stake == 200 && p.block == 2
  {
    var r;
    p, r := CreateKitty(dna);
    SweepWithoutDueListings(p.State(), 2, 200, []);
    var ok := p.Tick([]);
    r := p.Sale(0, 0, 10, 20);
  }

  /** A second `sale` of a listed kitty fails with `KittyAlreadyOnSale`. */
  method SaleTwice(dna: Dna) returns (listing: Listing, r: Outcome<Error>)
    ensures listing == Listing(10, 20) && r == Err(KittyAlreadyOnSale)
  {
    var p := Listed(dna);
    listing := p.onSale[0];
    r := p.Sale(0, 0, 10, 20);
  }

  /** Block 3: account 1 bids 30, reserving the stake and not the amount. */
  method FirstBid(dna: Dna) returns (p: Pallet, r: Outcome<Error>)
    ensures fresh(p) && p.Valid()
    ensures r == Ok
    ensures p.owner == map[0 := 0] && p.onSale == map[0 := Listing(10, 20)] && p.bid == map[0 := BidEntry(1, 30)]
    ensures p.balances == Balances(map[0 := G - 200, 1 := G - 200, 2 := G, 3 := G], map[0 := 200, 1 := 200], 1)
    ensures p.stake == 200 && p.block == 3
  {
    p := Listed(dna);
    SweepWithoutDueListings(p.State(), 3, 200, [0]);
    var ok := p.Tick([0]);
    assert Reserve(p.balances, 1, 200).Success?;
    r := p.Bid(1, 0, 30);
    assert p.balances.free == map[0 := G - 200, 1 := G - 200, 2 := G, 3 := G];
  }

  /** Bids at most the floor price, or at most the current bid, fail with `PriceNotHigh`. */
  method LowBids(dna: Dna) returns (r1: Outcome<Error>, r2: Outcome<Error>)
    ensures r1 == Err(PriceNotHigh) && r2 == Err(PriceNotHigh)
  {
    var p := Listed(dna);
    r1 := p.Bid(1, 0, 10);
    var r;
    p, r := FirstBid(dna);
    r2 := p.Bid(2, 0, 20);
  }

  /** Bids on a missing kitty, an unlisted kitty, and by the owner. */
  method RejectedBids(dna: Dna) returns (r1: Outcome<Error>, r2: Outcome<Error>, r3: Outcome<Error>)
    ensures r1 == Err(InvalidKittyId) && r2 == Err(KittyNotONSale) && r3 == Err(BidderIsOwner)
  {
    var p, r := CreateKitty(dna);
    r1 := p.Bid(2, 1, 50);
    r2 := p.Bid(1, 0, 50);
    r := p.Sale(0, 0, 10, 20);
    r3 := p.Bid(0, 0, 50);
  }

  /** Block 4, before the second bid. */
  method BlockFour(dna: Dna) returns (p: Pallet)
    ensures fresh(p) && p.Valid()
    ensures p.owner == map[0 := 0] && p.onSale == map[0 := Listing(10, 20)] && p.bid == map[0 := BidEntry(1, 30)]
    ensures p.balances == Balances(map[0 := G - 200, 1 := G - 200, 2 := G, 3 := G], map[0 := 200, 1 := 200], 1)
    ensures p.stake == 200 && p.block == 4
  {
    var r;
    p, r := FirstBid(dna);
    SweepWithoutDueListings(p.State(), 4, 200, [0]);
    var ok := p.Tick([0]);
  }

  /** Block 4: account 2 outbids with 100; account 1's stake is released. */
  method Outbid(dna: Dna) returns (p: Pallet, r: Outcome<Error>)
    ensures fresh(p) && p.Valid()
    ensures r == Ok
    ensures p.owner == map[0 := 0] && p.onSale == map[0 := Listing(10, 20)] && p.bid == map[0 := BidEntry(2, 100)]
    ensures p.balances == Balances(map[0 := G - 200, 1 := G, 2 := G - 200, 3 := G], map[0 := 200, 1 := 0, 2 := 200], 1)
    ensures p.stake == 200 && p.block == 4
  {
    p := BlockFour(dna);
    OutbidBalances(p.balances);
    assert p.BidCheck(2, 0, 100).None?;
    r := p.Bid(2, 0, 100);
  }

  lemma OutbidBalances(b: Balances)
    requires b == Balances(map[0 := G - 200, 1 := G - 200, 2 := G, 3 := G], map[0 := 200, 1 := 200], 1)
    ensures Reserve(b, 2, 200).Success?
    ensures Unreserve(Reserve(b, 2, 200).value, 1, 200) ==
      Balances(map[0 := G - 200, 1 := G, 2 := G - 200, 3 := G], map[0 := 200, 1 := 0, 2 := 200], 1)
  {
    var b1 := Reserve(b, 2, 200).value;
    assert b1 == Balances(map[0 := G - 200, 1 := G - 200, 2 := G - 200, 3 := G], map[0 := 200, 1 := 200, 2 := 200], 1);
  }

  /** Blocks 5..15: at block 10 the kitty goes to account 2, which pays 100 to account 0. */
  method TradeWorks(dna: Dna) returns (newOwner: AccountId, listed: bool, free0: nat, reserved0: nat, free2: nat, reserved2: nat)
    ensures newOwner == 2 && !listed
    ensures free0 == G + 100 && reserved0 == 0
    ensures free2 == G - 300 && reserved2 == 200
  {
    var p, r := Outbid(dna);
    while p.block < 9
      invariant 4 <= p.block <= 9
      invariant p.owner == map[0 := 0] && p.onSale == map[0 := Listing(10, 20)] && p.bid == map[0 := BidEntry(2, 100)]
      invariant p.balances.reserved == map[0 := 200, 1 := 0, 2 := 200]
      invariant Free(p.balances, 0) == G - 200 && Free(p.balances, 2) == G - 200 && p.balances.ed == 1
      invariant p.stake == 200
    {
      SweepWithoutDueListings(p.State(), p.block + 1, 200, [0]);
      var ok := p.Tick([0]);
    }
    SettleTrade(p.State());
    var ok := p.Tick([0]);
    var settled := p.State();
    while p.block < 15
      invariant p.State() == settled && p.onSale == map[] && p.stake == 200
    {
      SweepWithoutDueListings(p.State(), p.block + 1, 200, []);
      ok := p.Tick([]);
    }
    newOwner := p.owner[0];
    listed := 0 in p.onSale;
    free0, reserved0 := Free(p.balances, 0), Reserved(p.balances, 0);
    free2, reserved2 := Free(p.balances, 2), Reserved(p.balances, 2);
  }

  /** The sweep at block 10 on the listing with account 2's bid. */
  lemma SettleTrade(s: Storage)
    requires s.owner == map[0 := 0] && s.onSale == map[0 := Listing(10, 20)] && s.bid == map[0 := BidEntry(2, 100)]
    requires s.balances.reserved == map[0 := 200, 1 := 0, 2 := 200]
    requires Free(s.balances, 0) == G - 200 && Free(s.balances, 2) == G - 200 && s.balances.ed == 1
    ensures Sweep(s, 10, 200, [0]).Some?
    ensures var t := Sweep(s, 10, 200, [0]).value;
      t.owner == map[0 := 2] && t.onSale == map[] && t.bid == map[] &&
      Free(t.balances, 0) == G + 100 && Reserved(t.balances, 0) == 0 &&
      Free(t.balances, 2) == G - 300 && Reserved(t.balances, 2) == 200
  {
    assert [0][..0] == [];
    SettleListingEffect(s, 0, 10, 200);
  }

  /**
   * A bidder whose bid is its whole free balance cannot pay at settlement,
   * however much it has reserved: the keep-alive transfer needs the free
   * balance to stay at the existential deposit, so the `.expect("")` traps.
   */
  lemma StakedBidderCannotSpendAll(s: Storage)
    requires s.owner == map[0 := 0] && s.onSale == map[0 := Listing(10, 20)] && s.bid == map[0 := BidEntry(2, 100)]
    requires Free(s.balances, 2) == 100 && Reserved(s.balances, 2) == 200 && s.balances.ed == 1
    ensures SettleListing(s, 0, 10, 200).None?
  {
  }

  /** A buffer of two prices filled with 10 and 20. */
  method TwoPrices() returns (p: Pallet)
    ensures fresh(p) && p.maxPrices == 2 && p.prices == [10, 20]
  {
    p := new Pallet(map[], 1, 200, 2);
    var r := p.AddPrice(None, 10);
    assert p.prices == [10];
    r := p.AddPrice(Some(1), 20);
    assert [10] + [20] == [10, 20];
  }

  /** 10 and 20 average 15; then 31 overwrites slot 31 % 2 == 1, not the oldest price, and the average is 20. */
  method PriceBuffer() returns (average1: Option<u32>, average2: Option<u32>, buffer: seq<u32>)
    ensures average1 == Some(15) && average2 == Some(20) && buffer == [10, 31]
  {
    var p := TwoPrices();
    PairAverage(10, 20);
    average1 := AveragePrice(p.prices);
    var r := p.AddPrice(None, 31);
    assert Pushed([10, 20], 31, 2) == [10, 31];
    buffer := p.prices;
    PairAverage(10, 31);
    average2 := AveragePrice(buffer);
  }

  lemma PairAverage(a: u32, b: u32)
    requires a + b <= U32_MAX
    ensures AveragePrice([a, b]) == Some((a + b) / 2)
  {
    assert [a, b][..1] == [a] && [a][..0] == [];
    assert SaturatingSum([a]) == a;
    assert SaturatingSum([a, b]) == a + b;
  }

  /** A new chain passes `integrity_test`. */
  method GenesisIntegrity() returns (r: Outcome<Error>)
    ensures r == Ok
  {
    var p := NewTestExt();
    r := p.IntegrityTest();
  }

  /** A chain at version 0 with two v0 kitties, upgraded once: the v0 kitties become v1 kitties of price 0. */
  method Upgraded(d0: Dna, d1: Dna) returns (p: Pallet, count: u32)
    ensures fresh(p)
    ensures p.kitties == map[0 := Kitty(d0, 0), 1 := Kitty(d1, 0)] && p.v0Kitties == map[] && p.version == 1
    ensures count == 0
  {
    p := new Pallet.FromV0(map[0 := d0, 1 := d1], map[0 := 1, 1 := 2], 2, Balances(map[], map[], 1), 200, 64);
    assert |p.kitties| == 0;
    count := p.PreUpgrade();
    MigrateTwo(d0, d1);
    var w := p.MigrateToV1();
  }

  /**
   * Upgrading again changes nothing; and the upgrade check, which counts
   * v1 kitties both before and after the migration, panics because the
   * count went from 0 to 2.
   */
  method UpgradeFromV0(d0: Dna, d1: Dna) returns (againUnchanged: bool, check: Outcome<Error>)
    ensures againUnchanged && check == Panic
  {
    var p, count := Upgraded(d0, d1);
    var before := p.kitties;
    var w := p.MigrateToV1();
    againUnchanged := p.kitties == before && p.v0Kitties == map[] && p.version == 1;
    MigrateTwo(d0, d1);
    check := p.PostUpgrade(count);
  }

  lemma MigrateTwo(d0: Dna, d1: Dna)
    ensures Migrated(map[], map[0 := d0, 1 := d1]) == map[0 := Kitty(d0, 0), 1 := Kitty(d1, 0)]
    ensures |map[0 := Kitty(d0, 0), 1 := Kitty(d1, 0)]| == 2
  {
    var m := map[0 := Kitty(d0, 0), 1 := Kitty(d1, 0)];
    assert m.Keys == {0, 1};
  }
}

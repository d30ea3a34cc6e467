/**
 * The kitties pallet of homework-3/610 (pallets/kitties): bids are kept as a
 * list without escrow, new bids go to the front, and the owner completes a
 * sale by calling `transfer` after the end block, which charges the buyer.
 *
 * Every dispatchable is transactional: when it returns an error or panics,
 * storage is as before the call. The dna of a new kitty, and the child of a
 * breeding, are inputs: they come from `random_value` and `breed_kitty`.
 */
module Kitties610 {
  import opened Common
  import opened Ledger
  import opened Dna

  type KittyIndex = u32
  type BlockNumber = nat

  datatype Kitty = Kitty(dna: Dna)

  datatype BidEntry = BidEntry(bidder: AccountId, price: nat)

  datatype Error =
    | NotOwnerError
    | KittyIdOverflowError
    | SameKittyIdError
    | KittyNotExistError
    | KittySaleExpiredError
    | SelfTransferError
    | BidPriceIsLowerError
    | KittyNotOnSaleError
    | KittyOnSaleError
    | Currency(reason: LedgerError)

  datatype Event =
    | KittyCreated(creator: AccountId, index: KittyIndex, data: Dna)
    | KittyBreed(creator: AccountId, index: KittyIndex, kittyFatherId: KittyIndex, kittyMotherId: KittyIndex, data: Dna)
    | PutKittyInToOnSale(index: KittyIndex, untilBlock: BlockNumber)
    | KittyBided(bidder: AccountId, index: KittyIndex, price: nat)
    | KittyTransfer(owner: AccountId, to: AccountId, index: KittyIndex)

  datatype Storage = Storage(
    nextKittyId: KittyIndex,
    kitties: map<KittyIndex, Kitty>,
    owner: map<KittyIndex, AccountId>,
    onSale: map<KittyIndex, BlockNumber>,
    bids: map<KittyIndex, seq<BidEntry>>,
    balances: Balances)

  /**
   * What the dispatchables keep true: every kitty has an owner and an id
   * below the counter, only owned kitties are listed, only listed kitties
   * have bids, bid lists are never empty and never hold the owner.
   */
  ghost predicate Consistent(s: Storage)
  {
    s.owner.Keys == s.kitties.Keys &&
    (forall id :: id in s.kitties ==> id < s.nextKittyId) &&
    s.onSale.Keys <= s.owner.Keys &&
    s.bids.Keys <= s.onSale.Keys &&
    (forall id :: id in s.bids ==>
      s.bids[id] != [] && (forall k :: 0 <= k < |s.bids[id]| ==> s.bids[id][k].bidder != s.owner[id]))
  }

  /** `bids.last()` of a non-empty list. */
  function Last(bids: seq<BidEntry>): BidEntry
    requires bids != []
  {
    bids[|bids| - 1]
  }

  /**
   * A new bid goes to the front, so the last entry, which `bid` compares
   * against and `transfer` pays, stays the earliest bid.
   */
  lemma FrontInsertKeepsLast(b: BidEntry, bids: seq<BidEntry>)
    requires bids != []
    ensures Last([b] + bids) == Last(bids)
  {
  }

  class Pallet {
    var nextKittyId: KittyIndex
    var kitties: map<KittyIndex, Kitty>
    var owner: map<KittyIndex, AccountId>
    var onSale: map<KittyIndex, BlockNumber>
    var bids: map<KittyIndex, seq<BidEntry>>
    var balances: Balances
    var block: BlockNumber
    var events: seq<Event>

    function State(): Storage
      reads this
    {
      Storage(nextKittyId, kitties, owner, onSale, bids, balances)
    }

    ghost predicate Valid()
      reads this
    {
      Consistent(State())
    }

    constructor (balances: Balances)
      ensures State() == Storage(0, map[], map[], map[], map[], balances)
      ensures block == 0 && events == []
      ensures Valid()
    {
      nextKittyId := 0;
      kitties := map[];
      owner := map[];
      onSale := map[];
      bids := map[];
      this.balances := balances;
      block := 0;
      events := [];
    }

    /** The block number advances; this pallet has no block hook. */
    method Tick()
      modifies this`block
      ensures block == old(block) + 1
    {
      block := block + 1;
    }

    /**
     * Stores `Kitty(dna)` under `NextKittyId`, then increments the counter,
     * failing with `KittyIdOverflowError` at `u32::MAX`; on success the caller
     * owns the new id. Shared by `create` and `breed`.
     */
    method InsertNextKitty(who: AccountId, dna: Dna) returns (r: Result<KittyIndex, Error>)
      modifies this`kitties, this`nextKittyId, this`owner
      ensures old(nextKittyId) == U32_MAX ==> r == Failure(KittyIdOverflowError) && State() == old(State())
      ensures old(nextKittyId) < U32_MAX ==>
        r == Success(old(nextKittyId)) && nextKittyId == old(nextKittyId) + 1 &&
        kitties == old(kitties)[old(nextKittyId) := Kitty(dna)] && owner == old(owner)[old(nextKittyId) := who]
    {
      var saved := kitties;
      var kittyId := nextKittyId;
      kitties := kitties[kittyId := Kitty(dna)];
      var next := CheckedAddU32(kittyId, 1);
      if next.None? {
        kitties := saved;
        return Failure(KittyIdOverflowError);
      }
      nextKittyId := next.value;
      owner := owner[kittyId := who];
      r := Success(kittyId);
    }

    /** `create`: a kitty with the given (random) dna under the next id, owned by the caller. */
    method Create(who: AccountId, dna: Dna) returns (r: Outcome<Error>)
      modifies this`kitties, this`nextKittyId, this`owner, this`events
      ensures old(nextKittyId) == U32_MAX ==> r == Err(KittyIdOverflowError) && State() == old(State()) && events == old(events)
      ensures old(nextKittyId) < U32_MAX ==>
        r == Ok && nextKittyId == old(nextKittyId) + 1 &&
        kitties == old(kitties)[old(nextKittyId) := Kitty(dna)] &&
        owner == old(owner)[old(nextKittyId) := who] &&
        events == old(events) + [KittyCreated(who, old(nextKittyId), dna)]
      ensures old(Valid()) ==> Valid()
    {
      var id := InsertNextKitty(who, dna);
      if id.Failure? {
        return Err(id.error);
      }
      events := events + [KittyCreated(who, id.value, dna)];
      r := Ok;
    }

    /**
     * `breed`: rejects equal parent ids; a missing parent makes the `unwrap`
     * panic. No ownership or gender check is made. `child` is what
     * `breed_kitty` returns for the two parents.
     */
    method Breed(who: AccountId, father: KittyIndex, mother: KittyIndex, child: Dna) returns (r: Outcome<Error>)
      modifies this`kitties, this`nextKittyId, this`owner, this`events
      ensures !r.Ok? ==> State() == old(State()) && events == old(events)
      ensures father == mother ==> r == Err(SameKittyIdError)
      ensures father != mother && (father !in old(kitties) || mother !in old(kitties)) ==> r == Panic
      ensures father != mother && father in old(kitties) && mother in old(kitties) ==>
        (old(nextKittyId) == U32_MAX ==> r == Err(KittyIdOverflowError)) &&
        (old(nextKittyId) < U32_MAX ==>
          r == Ok && nextKittyId == old(nextKittyId) + 1 &&
          kitties == old(kitties)[old(nextKittyId) := Kitty(child)] &&
          owner == old(owner)[old(nextKittyId) := who] &&
          events == old(events) + [KittyBreed(who, old(nextKittyId), father, mother, child)])
      ensures old(Valid()) ==> Valid()
    {
      if father == mother {
        return Err(SameKittyIdError);
      }
      if father !in kitties || mother !in kitties {
        return Panic;
      }
      var id := InsertNextKitty(who, child);
      if id.Failure? {
        return Err(id.error);
      }
      events := events + [KittyBreed(who, id.value, father, mother, child)];
      r := Ok;
    }

    /**
     * `transfer`, which completes a sale: owner only, after the end block. The
     * buyer is the last (earliest) bidder, or the caller when there is no bid
     * list, which then fails with `SelfTransferError`. The buyer pays the
     * last bid's price, becomes the owner, and the bids and the listing are
     * removed. An unlisted kitty, or an empty bid list, makes an `unwrap` panic.
     */
    method Transfer(who: AccountId, kittyId: KittyIndex) returns (r: Outcome<Error>)
      modifies this`owner, this`bids, this`onSale, this`balances, this`events
      ensures !r.Ok? ==> State() == old(State()) && events == old(events)
      ensures kittyId !in old(owner) ==> r == Err(KittyNotExistError)
      ensures kittyId in old(owner) && old(owner)[kittyId] != who ==> r == Err(NotOwnerError)
      ensures kittyId in old(owner) && old(owner)[kittyId] == who ==>
        (kittyId !in old(onSale) ==> r == Panic) &&
        (kittyId in old(onSale) && block <= old(onSale)[kittyId] ==> r == Err(KittyOnSaleError)) &&
        (kittyId in old(onSale) && block > old(onSale)[kittyId] ==>
          (kittyId !in old(bids) ==> r == Err(SelfTransferError)) &&
          (kittyId in old(bids) && old(bids)[kittyId] == [] ==> r == Panic) &&
          (kittyId in old(bids) && old(bids)[kittyId] != [] ==>
            var last := Last(old(bids)[kittyId]);
            var paid := Ledger.Transfer(old(balances), last.bidder, who, last.price);
            (last.bidder == who ==> r == Err(SelfTransferError)) &&
            (last.bidder != who && paid.Failure? ==> r == Err(Currency(paid.error))) &&
            (last.bidder != who && paid.Success? ==>
              r == Ok && balances == paid.value &&
              owner == old(owner)[kittyId := last.bidder] &&
              bids == old(bids) - {kittyId} && onSale == old(onSale) - {kittyId} &&
              events == old(events) + [KittyTransfer(who, last.bidder, kittyId)])))
      ensures old(Valid()) ==> Valid()
    {
      if kittyId !in owner {
        return Err(KittyNotExistError);
      }
      var kittyOwner := owner[kittyId];
      if kittyOwner != who {
        return Err(NotOwnerError);
      }
      if kittyId !in onSale {
        return Panic;
      }
      if !(block > onSale[kittyId]) {
        return Err(KittyOnSaleError);
      }
      var bidder := who;
      var price := 0;
      if kittyId in bids {
        if bids[kittyId] == [] {
          return Panic;
        }
        bidder := Last(bids[kittyId]).bidder;
        price := Last(bids[kittyId]).price;
      }
      if bidder == kittyOwner {
        return Err(SelfTransferError);
      }
      var paid := Ledger.Transfer(balances, bidder, who, price);
      if paid.Failure? {
        return Err(Currency(paid.error));
      }
      Handover(who, kittyId, bidder, paid.value);
      r := Ok;
    }

    /** The writes of a completed sale: payment, new owner, listing and bids cleared, event. */
    method Handover(seller: AccountId, kittyId: KittyIndex, buyer: AccountId, paid: Balances)
      requires kittyId in owner
      modifies this`owner, this`bids, this`onSale, this`balances, this`events
      ensures balances == paid && owner == old(owner)[kittyId := buyer]
      ensures bids == old(bids) - {kittyId} && onSale == old(onSale) - {kittyId}
      ensures events == old(events) + [KittyTransfer(seller, buyer, kittyId)]
      ensures old(Valid()) ==> Valid()
    {
      balances := paid;
      owner := owner[kittyId := buyer];
      bids := bids - {kittyId};
      onSale := onSale - {kittyId};
      events := events + [KittyTransfer(seller, buyer, kittyId)];
    }

    /** `sale`: the kitty must exist and belong to the caller; the end block is overwritten. */
    method Sale(who: AccountId, kittyId: KittyIndex, untilBlock: BlockNumber) returns (r: Outcome<Error>)
      modifies this`onSale, this`events
      ensures kittyId !in owner ==> r == Err(KittyNotExistError)
      ensures kittyId in owner && owner[kittyId] != who ==> r == Err(NotOwnerError)
      ensures kittyId in owner && owner[kittyId] == who ==>
        r == Ok && onSale == old(onSale)[kittyId := untilBlock] &&
        events == old(events) + [PutKittyInToOnSale(kittyId, untilBlock)]
      ensures r != Ok ==> onSale == old(onSale) && events == old(events)
      ensures old(Valid()) ==> Valid()
    {
      if kittyId !in owner {
        return Err(KittyNotExistError);
      }
      if owner[kittyId] != who {
        return Err(NotOwnerError);
      }
      onSale := onSale[kittyId := untilBlock];
      events := events + [PutKittyInToOnSale(kittyId, untilBlock)];
      r := Ok;
    }

    /**
     * `bid`: the kitty must be listed and the sale still open (`block <
     * until`), the kitty must have an owner other than the bidder, and the
     * price must exceed the LAST entry's price (0 without a list). The bid is
     * inserted at the front; nothing is reserved.
     */
    method Bid(who: AccountId, kittyId: KittyIndex, price: nat) returns (r: Outcome<Error>)
      modifies this`bids, this`events
      ensures !r.Ok? ==> bids == old(bids) && events == old(events)
      ensures kittyId !in onSale ==> r == Err(KittyNotOnSaleError)
      ensures kittyId in onSale && block >= onSale[kittyId] ==> r == Err(KittySaleExpiredError)
      ensures kittyId in onSale && block < onSale[kittyId] ==>
        (kittyId !in owner ==> r == Err(KittyNotExistError)) &&
        (kittyId in owner && owner[kittyId] == who ==> r == Err(SelfTransferError)) &&
        (kittyId in owner && owner[kittyId] != who ==>
          (kittyId in old(bids) && old(bids)[kittyId] == [] ==> r == Panic) &&
          (kittyId in old(bids) && old(bids)[kittyId] != [] && price <= Last(old(bids)[kittyId]).price ==>
            r == Err(BidPriceIsLowerError)) &&
          (kittyId in old(bids) && old(bids)[kittyId] != [] && price > Last(old(bids)[kittyId]).price ==>
            r == Ok && bids == old(bids)[kittyId := [BidEntry(who, price)] + old(bids)[kittyId]]) &&
          (kittyId !in old(bids) ==>
            (price == 0 ==> r == Err(BidPriceIsLowerError)) &&
            (price > 0 ==> r == Ok && bids == old(bids)[kittyId := [BidEntry(who, price)]])))
      ensures r == Ok ==> events == old(events) + [KittyBided(who, kittyId, price)]
      ensures old(Valid()) ==> Valid()
    {
      if kittyId !in onSale {
        return Err(KittyNotOnSaleError);
      }
      if !(block < onSale[kittyId]) {
        return Err(KittySaleExpiredError);
      }
      if kittyId !in owner {
        return Err(KittyNotExistError);
      }
      if who == owner[kittyId] {
        return Err(SelfTransferError);
      }
      var currentPrice := 0;
      if kittyId in bids {
        if bids[kittyId] == [] {
          return Panic;
        }
        currentPrice := Last(bids[kittyId]).price;
      }
      if !(price > currentPrice) {
        return Err(BidPriceIsLowerError);
      }
      if kittyId in bids {
        bids := bids[kittyId := [BidEntry(who, price)] + bids[kittyId]];
      } else {
        bids := bids[kittyId := [BidEntry(who, price)]];
      }
      events := events + [KittyBided(who, kittyId, price)];
      r := Ok;
    }
  }
}

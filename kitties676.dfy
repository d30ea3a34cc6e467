/**
 * The kitties pallet of homework-3/676: an auction keeps, per kitty, an end
 * block (`MaxBindBlockNum`), the highest price so far (`MaxBindValue`) and a
 * bid list bounded by `MaxBidEntries`. There is no currency: bids move no
 * funds. The dna of a new kitty and the child of a breeding are inputs, they
 * come from `random_value` and `breed_kitty`.
 *
 * Every dispatchable is transactional; here every check comes before the
 * first write, so a failing call writes nothing.
 */
module Kitties676 {
  import opened Common
  import opened Dna

  type KittyIndex = u32
  type BlockNumber = nat

  datatype KittyInfo = KittyInfo(dna: Dna)

  datatype BidEntry = BidEntry(bidder: AccountId, price: u64)

  datatype Error =
    | InvalidKittyId
    | NotOwner
    | SameKittyId
    | OverFlow
    | BlockNumberTooSmall
    | SaleIsEnd
    | InvalidPrice
    | BidEntriesFull

  datatype Event =
    | KittyCreated(creator: AccountId, index: KittyIndex, data: Dna)
    | KittyBreeded(creator: AccountId, kitty1: KittyIndex, kitty2: KittyIndex, index: KittyIndex, data: Dna)
    | Transfered(from: AccountId, to: AccountId, kittyId: KittyIndex)
    | Saled(from: AccountId, to: AccountId, kittyId: KittyIndex, untilBlock: BlockNumber)
    | OnBid(kittyId: KittyIndex, price: u64)

  /** `BoundedVec::try_push`: appends when there is room, otherwise leaves the list as it is. */
  function TryPush(entries: seq<BidEntry>, e: BidEntry, bound: nat): (r: seq<BidEntry>)
    ensures |entries| <= bound ==> |r| <= bound
    ensures |entries| < bound ==> r == entries + [e]
    ensures |entries| >= bound ==> r == entries
  {
    if |entries| < bound then entries + [e] else entries
  }

  class Pallet {
    var nextKittyId: KittyIndex
    var kittyInfoList: map<KittyIndex, KittyInfo>
    var kittyOwnerList: map<KittyIndex, AccountId>
    var maxBindBlockNum: map<KittyIndex, BlockNumber>
    var maxBindValue: map<KittyIndex, u64>
    var kittiesBid: map<KittyIndex, seq<BidEntry>>
    var block: BlockNumber
    var events: seq<Event>
    /** The `MaxBidEntries` constant. */
    const maxBidEntries: nat

    /** Every kitty has an owner and an id below the counter; no bid list exceeds its bound. */
    ghost predicate Valid()
      reads this
    {
      kittyOwnerList.Keys == kittyInfoList.Keys &&
      (forall id :: id in kittyInfoList ==> id < nextKittyId) &&
      (forall id :: id in kittiesBid ==> |kittiesBid[id]| <= maxBidEntries)
    }

    constructor (maxBidEntries: nat)
      ensures nextKittyId == 0 && kittyInfoList == map[] && kittyOwnerList == map[]
      ensures maxBindBlockNum == map[] && maxBindValue == map[] && kittiesBid == map[]
      ensures block == 0 && events == [] && this.maxBidEntries == maxBidEntries
      ensures Valid()
    {
      nextKittyId := 0;
      kittyInfoList := map[];
      kittyOwnerList := map[];
      maxBindBlockNum := map[];
      maxBindValue := map[];
      kittiesBid := map[];
      block := 0;
      events := [];
      this.maxBidEntries := maxBidEntries;
    }

    /** The block number advances; this pallet has no block hook. */
    method Tick()
      modifies this`block
      ensures block == old(block) + 1
    {
      block := block + 1;
    }

    /** `create`: fails with `OverFlow` at `u32::MAX` before any write; otherwise a new kitty owned by the caller. */
    method Create(who: AccountId, dna: Dna) returns (r: Outcome<Error>)
      modifies this`nextKittyId, this`kittyInfoList, this`kittyOwnerList, this`events
      ensures old(nextKittyId) == U32_MAX ==>
        r == Err(OverFlow) && nextKittyId == old(nextKittyId) &&
        kittyInfoList == old(kittyInfoList) && kittyOwnerList == old(kittyOwnerList) && events == old(events)
      ensures old(nextKittyId) < U32_MAX ==>
        r == Ok && nextKittyId == old(nextKittyId) + 1 &&
        kittyInfoList == old(kittyInfoList)[old(nextKittyId) := KittyInfo(dna)] &&
        kittyOwnerList == old(kittyOwnerList)[old(nextKittyId) := who] &&
        events == old(events) + [KittyCreated(who, old(nextKittyId), dna)]
      ensures old(Valid()) ==> Valid()
    {
      var kittyId := nextKittyId;
      var next := CheckedAddU32(kittyId, 1);
      if next.None? {
        return Err(OverFlow);
      }
      kittyInfoList := kittyInfoList[kittyId := KittyInfo(dna)];
      kittyOwnerList := kittyOwnerList[kittyId := who];
      nextKittyId := next.value;
      events := events + [KittyCreated(who, kittyId, dna)];
      r := Ok;
    }

    /**
     * `breed`: fails with `OverFlow` first; a missing parent makes `expect`
     * panic. There is no ownership, same-id or gender check. `child` is what
     * `breed_kitty` returns for the two parents.
     */
    method Breed(who: AccountId, kitty1: KittyIndex, kitty2: KittyIndex, child: Dna) returns (r: Outcome<Error>)
      modifies this`nextKittyId, this`kittyInfoList, this`kittyOwnerList, this`events
      ensures old(nextKittyId) == U32_MAX ==> r == Err(OverFlow)
      ensures old(nextKittyId) < U32_MAX && (kitty1 !in old(kittyInfoList) || kitty2 !in old(kittyInfoList)) ==> r == Panic
      ensures !r.Ok? ==>
        nextKittyId == old(nextKittyId) && kittyInfoList == old(kittyInfoList) &&
        kittyOwnerList == old(kittyOwnerList) && events == old(events)
      ensures old(nextKittyId) < U32_MAX && kitty1 in old(kittyInfoList) && kitty2 in old(kittyInfoList) ==>
        r == Ok && nextKittyId == old(nextKittyId) + 1 &&
        kittyInfoList == old(kittyInfoList)[old(nextKittyId) := KittyInfo(child)] &&
        kittyOwnerList == old(kittyOwnerList)[old(nextKittyId) := who] &&
        events == old(events) + [KittyBreeded(who, kitty1, kitty2, old(nextKittyId), child)]
      ensures old(Valid()) ==> Valid()
    {
      var kittyId := nextKittyId;
      var next := CheckedAddU32(kittyId, 1);
      if next.None? {
        return Err(OverFlow);
      }
      if kitty1 !in kittyInfoList || kitty2 !in kittyInfoList {
        return Panic;
      }
      kittyInfoList := kittyInfoList[kittyId := KittyInfo(child)];
      nextKittyId := next.value;
      kittyOwnerList := kittyOwnerList[kittyId := who];
      events := events + [KittyBreeded(who, kitty1, kitty2, kittyId, child)];
      r := Ok;
    }

    /** `transfer`: `NotOwner` unless the kitty has the caller as owner; then the owner becomes `to`. */
    method Transfer(who: AccountId, to: AccountId, kittyId: KittyIndex) returns (r: Outcome<Error>)
      modifies this`kittyOwnerList, this`events
      ensures r == Ok || r == Err(NotOwner)
      ensures r == Ok <==> kittyId in old(kittyOwnerList) && old(kittyOwnerList)[kittyId] == who
      ensures r == Ok ==>
        kittyOwnerList == old(kittyOwnerList)[kittyId := to] && events == old(events) + [Transfered(who, to, kittyId)]
      ensures r != Ok ==> kittyOwnerList == old(kittyOwnerList) && events == old(events)
      ensures old(Valid()) ==> Valid()
    {
      if kittyId !in kittyOwnerList || kittyOwnerList[kittyId] != who {
        return Err(NotOwner);
      }
      kittyOwnerList := kittyOwnerList - {kittyId};
      kittyOwnerList := kittyOwnerList[kittyId := to];
      events := events + [Transfered(who, to, kittyId)];
      r := Ok;
    }

    /**
     * `sale`: owner only, and the end block must lie in the future. A first
     * listing starts at price 0 with an empty bid list; a running auction
     * only gets its end block moved; an ended auction fails with `SaleIsEnd`.
     */
    method Sale(who: AccountId, to: AccountId, kittyId: KittyIndex, untilBlock: BlockNumber) returns (r: Outcome<Error>)
      modifies this`maxBindBlockNum, this`maxBindValue, this`kittiesBid, this`events
      ensures !Owns(kittyId, who) ==> r == Err(NotOwner)
      ensures Owns(kittyId, who) && untilBlock <= block ==> r == Err(BlockNumberTooSmall)
      ensures Owns(kittyId, who) && untilBlock > block && kittyId in old(maxBindBlockNum) ==>
        (old(maxBindBlockNum)[kittyId] <= block ==> r == Err(SaleIsEnd)) &&
        (old(maxBindBlockNum)[kittyId] > block ==>
          r == Ok && maxBindBlockNum == old(maxBindBlockNum)[kittyId := untilBlock] &&
          maxBindValue == old(maxBindValue) && kittiesBid == old(kittiesBid))
      ensures Owns(kittyId, who) && untilBlock > block && kittyId !in old(maxBindBlockNum) ==>
        r == Ok && maxBindBlockNum == old(maxBindBlockNum)[kittyId := untilBlock] &&
        maxBindValue == old(maxBindValue)[kittyId := 0] && kittiesBid == old(kittiesBid)[kittyId := []]
      ensures r == Ok ==> events == old(events) + [Saled(who, to, kittyId, untilBlock)]
      ensures r != Ok ==>
        maxBindBlockNum == old(maxBindBlockNum) && maxBindValue == old(maxBindValue) &&
        kittiesBid == old(kittiesBid) && events == old(events)
      ensures old(Valid()) ==> Valid()
    {
      if kittyId !in kittyOwnerList || kittyOwnerList[kittyId] != who {
        return Err(NotOwner);
      }
      var curNum := block;
      if !(untilBlock > curNum) {
        return Err(BlockNumberTooSmall);
      }
      if kittyId in maxBindBlockNum {
        if !(maxBindBlockNum[kittyId] > curNum) {
          return Err(SaleIsEnd);
        }
        maxBindBlockNum := maxBindBlockNum[kittyId := untilBlock];
        events := events + [Saled(who, to, kittyId, untilBlock)];
        return Ok;
      }
      maxBindBlockNum := maxBindBlockNum[kittyId := untilBlock];
      maxBindValue := maxBindValue[kittyId := 0];
      kittiesBid := kittiesBid[kittyId := []];
      events := events + [Saled(who, to, kittyId, untilBlock)];
      r := Ok;
    }

    /** The kitty has an owner and it is `who`. */
    predicate Owns(kittyId: KittyIndex, who: AccountId)
      reads this
    {
      kittyId in kittyOwnerList && kittyOwnerList[kittyId] == who
    }

    /** `MaxBindValue` of a kitty, 0 when unset. */
    function MaxValue(kittyId: KittyIndex): u64
      reads this
    {
      if kittyId in maxBindValue then maxBindValue[kittyId] else 0
    }

    /** The bid list of a kitty, empty when `KittiesBid` has no entry. */
    function Entries(kittyId: KittyIndex): seq<BidEntry>
      reads this
    {
      if kittyId in kittiesBid then kittiesBid[kittyId] else []
    }

    /**
     * `bid`: `InvalidPrice` unless the price beats `MaxBindValue`. There is no
     * listing, expiry or owner check. The entry is pushed when the list has
     * room and silently dropped when it is full (the `try_push` error is
     * discarded), and `MaxBindValue` is raised to the price either way.
     */
    method Bid(who: AccountId, kittyId: KittyIndex, price: u64) returns (r: Outcome<Error>)
      modifies this`kittiesBid, this`maxBindValue, this`events
      ensures r == Ok || r == Err(InvalidPrice)
      ensures r == Ok <==> price > old(MaxValue(kittyId))
      ensures r == Ok ==>
        kittiesBid == old(kittiesBid)[kittyId := TryPush(old(Entries(kittyId)), BidEntry(who, price), maxBidEntries)] &&
        maxBindValue == old(maxBindValue)[kittyId := price] &&
        events == old(events) + [OnBid(kittyId, price)]
      ensures r != Ok ==> kittiesBid == old(kittiesBid) && maxBindValue == old(maxBindValue) && events == old(events)
      ensures old(Valid()) ==> Valid()
    {
      var maxValue := if kittyId in maxBindValue then maxBindValue[kittyId] else 0;
      if !(price > maxValue) {
        return Err(InvalidPrice);
      }
      var entries := if kittyId in kittiesBid then kittiesBid[kittyId] else [];
      entries := TryPush(entries, BidEntry(who, price), maxBidEntries);
      kittiesBid := kittiesBid[kittyId := entries];
      maxBindValue := maxBindValue[kittyId := price];
      events := events + [OnBid(kittyId, price)];
      r := Ok;
    }
  }
}

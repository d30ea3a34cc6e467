/**
 * The kitties pallet of homework-3/672: creation from random dna, breeding
 * with a gender rule and a breed fee, transfer, listing with an end block,
 * escrowed bids, and a per-block sweep that pays the highest bid.
 *
 * Every dispatchable is transactional: when it returns an error or panics,
 * storage is as before the call. Randomness is the `dna`/`selector` input.
 */
module Kitties672 {
  import opened Common
  import opened MapSum
  import opened Ledger
  import opened Dna

  type KittyIndex = u32
  type BlockNumber = nat

  datatype Kitty = Kitty(dna: Dna)

  /** One entry of `KittiesBid`: the bidder and the reserved amount. */
  datatype BidEntry = BidEntry(bidder: AccountId, price: nat)

  datatype Error =
    | NotOwner
    | AlreadyOnSale
    | InvalidKittyId
    | SameGender
    | KittyIdOverflow
    | Currency(reason: LedgerError)

  datatype Event =
    | KittyCreated(creator: AccountId, index: KittyIndex, data: Dna)
    | KittyTransferred(from: AccountId, to: AccountId, index: KittyIndex)
    | KittyBid(bidder: AccountId, index: KittyIndex, price: nat)
    | KittyOnSale(index: KittyIndex, until: BlockNumber)

  /** The pallet's storage items and the balances of the currency it uses. */
  datatype Storage = Storage(
    nextKittyId: KittyIndex,
    kitties: map<KittyIndex, Kitty>,
    owner: map<KittyIndex, AccountId>,
    onSale: map<KittyIndex, BlockNumber>,
    bids: map<KittyIndex, seq<BidEntry>>,
    balances: Balances)

  /** What the dispatchables keep true: every kitty has an owner, ids lie below the counter, listed kitties are owned. */
  ghost predicate Consistent(s: Storage)
  {
    s.owner.Keys == s.kitties.Keys &&
    (forall id :: id in s.kitties ==> id < s.nextKittyId) &&
    s.onSale.Keys <= s.owner.Keys
  }

  /** `kitties_owner(id) == Some(who)`. */
  predicate Owns(owner: map<KittyIndex, AccountId>, id: KittyIndex, who: AccountId)
  {
    id in owner && owner[id] == who
  }

  /** The bid list of a kitty, empty when `KittiesBid` has no entry. */
  function BidsOf(bids: map<KittyIndex, seq<BidEntry>>, id: KittyIndex): seq<BidEntry>
  {
    if id in bids then bids[id] else []
  }

  /** The first failing check of `breed`, in the order the call makes them; `None` when all pass. */
  function BreedCheck(s: Storage, who: AccountId, kitty1: KittyIndex, kitty2: KittyIndex): Option<Error>
  {
    if !Owns(s.owner, kitty1, who) then Some(NotOwner)
    else if kitty1 in s.onSale then Some(AlreadyOnSale)
    else if kitty1 !in s.kitties || kitty2 !in s.kitties then Some(InvalidKittyId)
    else if !CanBreed(s.kitties[kitty1].dna, s.kitties[kitty2].dna) then Some(SameGender)
    else if s.nextKittyId == U32_MAX then Some(KittyIdOverflow)
    else None
  }

  /**
   * In a consistent state a missing `kitty_1` is reported as `NotOwner`, so
   * `InvalidKittyId` always means that `kitty_2` is missing.
   */
  lemma BreedCheckMissingParent(s: Storage, who: AccountId, kitty1: KittyIndex, kitty2: KittyIndex)
    requires Consistent(s)
    ensures kitty1 !in s.kitties ==> BreedCheck(s, who, kitty1, kitty2) == Some(NotOwner)
    ensures BreedCheck(s, who, kitty1, kitty2) == Some(InvalidKittyId) ==> kitty1 in s.kitties && kitty2 !in s.kitties
  {
  }

  // ---------------------------------------------------------------------
  // The settlement sweep (`try_complete_sale`) as functions on storage.
  // ---------------------------------------------------------------------

  /**
   * The `(bidder, highest_bid)` pair the sweep's inner loop ends with: a later
   * bid replaces the current one only when its price is strictly greater.
   */
  function Best(bids: seq<BidEntry>): (r: (Option<AccountId>, nat))
    ensures r.1 > 0 <==> r.0.Some?
    decreases |bids|
  {
    if bids == [] then (None, 0)
    else
      var prev := Best(bids[..|bids| - 1]);
      var last := bids[|bids| - 1];
      if last.price > prev.1 then (Some(last.bidder), last.price) else prev
  }

  /** The balances after the inner loop has unreserved every bid of the list, in order. */
  function RefundAll(b: Balances, bids: seq<BidEntry>): Balances
    decreases |bids|
  {
    if bids == [] then b
    else
      var last := bids[|bids| - 1];
      Unreserve(RefundAll(b, bids[..|bids| - 1]), last.bidder, last.price)
  }

  /** The sum of the prices `who` has bid in a list. */
  function BidTotal(bids: seq<BidEntry>, who: AccountId): nat
    decreases |bids|
  {
    if bids == [] then 0
    else
      var last := bids[|bids| - 1];
      BidTotal(bids[..|bids| - 1], who) + (if last.bidder == who then last.price else 0)
  }

  /**
   * One listing of the sweep at block `n`. `None` is a panic: the owner
   * `expect` on a listing without owner, or a failing payment. A listing
   * whose end block is `n` and that has a bid list gets every bid unreserved;
   * when the best bid is above zero it is paid to the owner, the bidder
   * becomes the owner and the listing is removed. `KittiesBid` is kept.
   */
  function SettleListing(s: Storage, id: KittyIndex, n: BlockNumber): Option<Storage>
    requires id in s.onSale
  {
    if s.onSale[id] != n then Some(s)
    else if id !in s.owner then None
    else if id !in s.bids then Some(s)
    else
      var refunded := RefundAll(s.balances, s.bids[id]);
      var best := Best(s.bids[id]);
      if best.1 == 0 then Some(s.(balances := refunded))
      else
        match Transfer(refunded, best.0.value, s.owner[id], best.1)
        case Failure(_) => None
        case Success(paid) =>
          Some(s.(balances := paid, owner := s.owner[id := best.0.value], onSale := s.onSale - {id}))
  }

  /** The sweep over the listing keys in iteration order; `None` when some listing panics. */
  function Sweep(s: Storage, n: BlockNumber, order: seq<KittyIndex>): Option<Storage>
    decreases |order|
  {
    if order == [] then Some(s)
    else
      match Sweep(s, n, order[..|order| - 1])
      case None => None
      case Some(t) =>
        var id := order[|order| - 1];
        if id in t.onSale then SettleListing(t, id, n) else Some(t)
  }

  /** `order` enumerates the listing keys, each once: a snapshot of `KittyOnSale::iter()`. */
  ghost predicate ListingOrder(onSale: map<KittyIndex, BlockNumber>, order: seq<KittyIndex>)
  {
    (forall id :: id in onSale <==> id in order) &&
    (forall i, j :: 0 <= i < j < |order| ==> order[i] != order[j])
  }

  /**
   * The winner is the FIRST bid with the strictly greatest price: every bid is
   * at most the highest, and when the highest is above zero it is the price of
   * some bid by the winner that all earlier bids fall short of.
   */
  lemma {:induction false} BestIsFirstGreatest(bids: seq<BidEntry>)
    ensures forall k :: 0 <= k < |bids| ==> bids[k].price <= Best(bids).1
    ensures Best(bids).1 > 0 ==>
      exists k :: 0 <= k < |bids| && bids[k].price == Best(bids).1 &&
        Best(bids).0 == Some(bids[k].bidder) &&
        forall j :: 0 <= j < k ==> bids[j].price < Best(bids).1
    decreases |bids|
  {
    if bids != [] {
      var init := bids[..|bids| - 1];
      BestIsFirstGreatest(init);
      assert forall k :: 0 <= k < |init| ==> bids[k] == init[k];
      var last := bids[|bids| - 1];
      if last.price > Best(init).1 {
        assert forall j :: 0 <= j < |bids| - 1 ==> bids[j].price < Best(bids).1;
      } else if Best(bids).1 > 0 {
        var k :| 0 <= k < |init| && init[k].price == Best(init).1 &&
                 Best(init).0 == Some(init[k].bidder) &&
                 forall j :: 0 <= j < k ==> init[j].price < Best(init).1;
        assert bids[k].price == Best(bids).1;
      }
    }
  }

  /** A list of zero bids has no winner. */
  lemma {:induction false} BestOfZeroBids(bids: seq<BidEntry>)
    requires forall k :: 0 <= k < |bids| ==> bids[k].price == 0
    ensures Best(bids) == (None, 0)
  {
    BestIsFirstGreatest(bids);
  }

  /**
   * Unreserving all bids, winning or not, returns to each account exactly
   * what it bid, provided its bids were all held in reserve.
   */
  lemma {:induction false} RefundAllReleasesBids(b: Balances, bids: seq<BidEntry>, who: AccountId)
    requires forall a :: BidTotal(bids, a) <= Reserved(b, a)
    ensures Free(RefundAll(b, bids), who) == Free(b, who) + BidTotal(bids, who)
    ensures Reserved(RefundAll(b, bids), who) == Reserved(b, who) - BidTotal(bids, who)
    ensures RefundAll(b, bids).ed == b.ed
    decreases |bids|
  {
    if bids != [] {
      var init := bids[..|bids| - 1];
      var last := bids[|bids| - 1];
      assert forall a :: BidTotal(init, a) <= BidTotal(bids, a);
      RefundAllReleasesBids(b, init, who);
      if last.bidder != who {
        RefundAllReleasesBids(b, init, last.bidder);
      }
    }
  }

  /** Unreserving creates no value. */
  lemma {:induction false} RefundAllKeepsTotal(b: Balances, bids: seq<BidEntry>)
    ensures Total(RefundAll(b, bids)) == Total(b)
    decreases |bids|
  {
    if bids != [] {
      var last := bids[|bids| - 1];
      RefundAllKeepsTotal(b, bids[..|bids| - 1]);
      UnreserveKeepsTotal(RefundAll(b, bids[..|bids| - 1]), last.bidder, last.price);
    }
  }

  /**
   * Settlement of a single listing: when the best bid is above zero the
   * kitty goes to the winner, the listing is removed and the old owner is
   * paid; with no bid list, or only zero bids, the listing and the owner stay.
   */
  lemma SettleListingEffect(s: Storage, id: KittyIndex, n: BlockNumber)
    requires id in s.onSale && s.onSale[id] == n && id in s.owner
    ensures var t := SettleListing(s, id, n);
      (id !in s.bids ==> t == Some(s)) &&
      (id in s.bids && Best(s.bids[id]).1 == 0 ==> t.Some? && t.value.owner == s.owner && t.value.onSale == s.onSale) &&
      (id in s.bids && Best(s.bids[id]).1 > 0 && t.Some? ==>
        t.value.owner == s.owner[id := Best(s.bids[id]).0.value] && t.value.onSale == s.onSale - {id} &&
        (Best(s.bids[id]).0.value != s.owner[id] ==>
          Free(t.value.balances, s.owner[id]) == Free(RefundAll(s.balances, s.bids[id]), s.owner[id]) + Best(s.bids[id]).1))
  {
  }

  /**
   * What the sweep at block `n` never touches: listings ending at another
   * block and their owners, the kitties, the counter and the bid lists.
   */
  lemma {:induction false} SweepFrame(s: Storage, n: BlockNumber, order: seq<KittyIndex>)
    requires Sweep(s, n, order).Some?
    ensures var t := Sweep(s, n, order).value;
      t.kitties == s.kitties && t.nextKittyId == s.nextKittyId && t.bids == s.bids &&
      t.onSale.Keys <= s.onSale.Keys && t.owner.Keys == s.owner.Keys &&
      (forall id :: id in s.onSale && s.onSale[id] != n ==>
        id in t.onSale && t.onSale[id] == s.onSale[id] && (id in s.owner ==> t.owner[id] == s.owner[id])) &&
      (forall id :: id in t.onSale ==> t.onSale[id] == s.onSale[id]) &&
      (forall id :: id !in s.onSale && id in s.owner ==> t.owner[id] == s.owner[id])
    decreases |order|
  {
    if order != [] {
      SweepFrame(s, n, order[..|order| - 1]);
    }
  }

  /** The sweep moves funds but creates none. */
  lemma {:induction false} SweepKeepsTotal(s: Storage, n: BlockNumber, order: seq<KittyIndex>)
    requires Sweep(s, n, order).Some?
    ensures Total(Sweep(s, n, order).value.balances) == Total(s.balances)
    decreases |order|
  {
    if order != [] {
      SweepKeepsTotal(s, n, order[..|order| - 1]);
      var t := Sweep(s, n, order[..|order| - 1]).value;
      var id := order[|order| - 1];
      if id in t.onSale && t.onSale[id] == n && id in t.owner && id in t.bids {
        var refunded := RefundAll(t.balances, t.bids[id]);
        RefundAllKeepsTotal(t.balances, t.bids[id]);
        var best := Best(t.bids[id]);
        if best.1 > 0 {
          TransferKeepsTotal(refunded, best.0.value, t.owner[id], best.1);
        }
      }
    }
  }

  /** The sweep keeps storage consistent, and in a consistent state the owner `expect` never fires. */
  lemma {:induction false} SweepKeepsConsistent(s: Storage, n: BlockNumber, order: seq<KittyIndex>)
    requires Consistent(s)
    requires Sweep(s, n, order).Some?
    ensures Consistent(Sweep(s, n, order).value)
  {
    SweepFrame(s, n, order);
  }

  /** A second sweep at the same block changes nothing more when the first left no winning listing. */
  lemma {:induction false} SweepWithoutDueListings(s: Storage, n: BlockNumber, order: seq<KittyIndex>)
    requires forall id :: id in s.onSale ==> s.onSale[id] != n
    ensures Sweep(s, n, order) == Some(s)
    decreases |order|
  {
    if order != [] {
      SweepWithoutDueListings(s, n, order[..|order| - 1]);
    }
  }

  class Pallet {
    var nextKittyId: KittyIndex
    var kitties: map<KittyIndex, Kitty>
    var owner: map<KittyIndex, AccountId>
    var onSale: map<KittyIndex, BlockNumber>
    var bids: map<KittyIndex, seq<BidEntry>>
    var balances: Balances
    var block: BlockNumber
    var events: seq<Event>
    /** The `BreedFee` constant. */
    const breedFee: nat

    function State(): Storage
      reads this
    {
      Storage(nextKittyId, kitties, owner, onSale, bids, balances)
    }

    ghost predicate Valid()
      reads this
    {
      Consistent(State())
    }

    /** Genesis: every storage item empty, `NextKittyId` at its default 0. */
    constructor (balances: Balances, breedFee: nat)
      ensures State() == Storage(0, map[], map[], map[], map[], balances)
      ensures this.breedFee == breedFee && block == 0 && events == []
      ensures Valid()
    {
      nextKittyId := 0;
      kitties := map[];
      owner := map[];
      onSale := map[];
      bids := map[];
      this.balances := balances;
      block := 0;
      events := [];
      this.breedFee := breedFee;
    }

    /**
     * `next_kitty_id`: stores the kitty under the current counter, then
     * increments it; at `u32::MAX` it fails with `KittyIdOverflow` after the
     * kitty has been written (the enclosing call rolls that back).
     */
    method NextKittyId(value: Dna) returns (r: Result<KittyIndex, Error>)
      modifies this`kitties, this`nextKittyId
      ensures kitties == old(kitties)[old(nextKittyId) := Kitty(value)]
      ensures old(nextKittyId) < U32_MAX ==> r == Success(old(nextKittyId)) && nextKittyId == old(nextKittyId) + 1
      ensures old(nextKittyId) == U32_MAX ==> r == Failure(KittyIdOverflow) && nextKittyId == old(nextKittyId)
    {
      var kittyId := nextKittyId;
      kitties := kitties[kittyId := Kitty(value)];
      var next := CheckedAddU32(kittyId, 1);
      if next.None? {
        return Failure(KittyIdOverflow);
      }
      nextKittyId := next.value;
      r := Success(kittyId);
    }

    /** `create`: a new kitty with the given (random) dna, owned by the caller. */
    method Create(who: AccountId, dna: Dna) returns (r: Outcome<Error>)
      modifies this`kitties, this`nextKittyId, this`owner, this`events
      ensures old(nextKittyId) == U32_MAX ==> r == Err(KittyIdOverflow) && State() == old(State()) && events == old(events)
      ensures old(nextKittyId) < U32_MAX ==>
        r == Ok && nextKittyId == old(nextKittyId) + 1 &&
        kitties == old(kitties)[old(nextKittyId) := Kitty(dna)] &&
        owner == old(owner)[old(nextKittyId) := who] &&
        events == old(events) + [KittyCreated(who, old(nextKittyId), dna)]
      ensures old(Valid()) ==> Valid()
    {
      var saved := kitties;
      var id := NextKittyId(dna);
      if id.Failure? {
        kitties := saved;
        return Err(id.error);
      }
      kitties := kitties[id.value := Kitty(dna)];
      owner := owner[id.value := who];
      events := events + [KittyCreated(who, id.value, dna)];
      r := Ok;
    }

    /**
     * `breed`: after the checks of `BreedCheck`, a child of the two parents is
     * created for the caller; when the caller does not own `kitty_2`, the
     * breed fee is paid to its owner, and a failing payment fails the call.
     * A `kitty_2` without owner makes the `unwrap` panic.
     */
    method Breed(who: AccountId, kitty1: KittyIndex, kitty2: KittyIndex, selector: Dna) returns (r: Outcome<Error>)
      modifies this`kitties, this`nextKittyId, this`owner, this`balances
      ensures !r.Ok? ==> State() == old(State())
      ensures BreedCheck(old(State()), who, kitty1, kitty2).Some? ==>
        r == Err(BreedCheck(old(State()), who, kitty1, kitty2).value)
      ensures BreedCheck(old(State()), who, kitty1, kitty2).None? ==>
        var id := old(nextKittyId);
        var owners := old(owner)[id := who];
        (r == Panic <==> kitty2 !in owners) &&
        (kitty2 in owners && owners[kitty2] != who ==>
          (r.Err? <==> Ledger.Transfer(old(balances), who, owners[kitty2], breedFee).Failure?) &&
          (r.Err? ==> r.error == Currency(Ledger.Transfer(old(balances), who, owners[kitty2], breedFee).error)) &&
          (r.Ok? ==> balances == Ledger.Transfer(old(balances), who, owners[kitty2], breedFee).value)) &&
        (kitty2 in owners && owners[kitty2] == who ==> r == Ok && balances == old(balances)) &&
        (r.Ok? ==>
          nextKittyId == id + 1 && owner == owners &&
          kitties == old(kitties)[id := Kitty(ChildDna(old(kitties)[kitty1].dna, old(kitties)[kitty2].dna, selector))])
      ensures old(Valid()) ==> Valid()
    {
      var s0 := State();
      var check := BreedCheck(s0, who, kitty1, kitty2);
      if !Owns(owner, kitty1, who) {
        return Err(NotOwner);
      }
      if kitty1 in onSale {
        return Err(AlreadyOnSale);
      }
      if kitty1 !in kitties || kitty2 !in kitties {
        return Err(InvalidKittyId);
      }
      var dna1 := kitties[kitty1].dna;
      var dna2 := kitties[kitty2].dna;
      if !CanBreed(dna1, dna2) {
        return Err(SameGender);
      }
      var newDna := BreedKitty(dna1, dna2, selector);
      var id := NextKittyId(newDna);
      if id.Failure? {
        kitties := s0.kitties;
        return Err(id.error);
      }
      kitties := kitties[id.value := Kitty(newDna)];
      owner := owner[id.value := who];
      if !Owns(owner, kitty2, who) {
        if kitty2 !in owner {
          kitties, nextKittyId, owner := s0.kitties, s0.nextKittyId, s0.owner;
          return Panic;
        }
        var paid := Ledger.Transfer(balances, who, owner[kitty2], breedFee);
        if paid.Failure? {
          kitties, nextKittyId, owner := s0.kitties, s0.nextKittyId, s0.owner;
          return Err(Currency(paid.error));
        }
        balances := paid.value;
      }
      r := Ok;
    }

    /** `transfer`: owner only; rewrites the owner and nothing else (no listing or self-transfer check). */
    method Transfer(who: AccountId, kittyId: KittyIndex, to: AccountId) returns (r: Outcome<Error>)
      modifies this`owner, this`events
      ensures r == Ok || r == Err(NotOwner)
      ensures r == Ok <==> Owns(old(owner), kittyId, who)
      ensures r == Ok ==> owner == old(owner)[kittyId := to] && events == old(events) + [KittyTransferred(who, to, kittyId)]
      ensures r != Ok ==> owner == old(owner) && events == old(events)
      ensures old(Valid()) ==> Valid()
    {
      if !Owns(owner, kittyId, who) {
        return Err(NotOwner);
      }
      owner := owner[kittyId := to];
      events := events + [KittyTransferred(who, to, kittyId)];
      r := Ok;
    }

    /** `sale`: owner only; overwrites the end block, which may lie in the past. */
    method Sale(who: AccountId, kittyId: KittyIndex, untilBlock: BlockNumber) returns (r: Outcome<Error>)
      modifies this`onSale, this`events
      ensures r == Ok || r == Err(NotOwner)
      ensures r == Ok <==> Owns(owner, kittyId, who)
      ensures r == Ok ==> onSale == old(onSale)[kittyId := untilBlock] && events == old(events) + [KittyOnSale(kittyId, untilBlock)]
      ensures r != Ok ==> onSale == old(onSale) && events == old(events)
      ensures old(Valid()) ==> Valid()
    {
      if !Owns(owner, kittyId, who) {
        return Err(NotOwner);
      }
      onSale := onSale[kittyId := untilBlock];
      events := events + [KittyOnSale(kittyId, untilBlock)];
      r := Ok;
    }

    /**
     * `bid`: reserves the price from the bidder, then appends the bid. There
     * is no check that the kitty exists, is listed, is still open, or belongs
     * to someone else, nor on the price.
     */
    method Bid(who: AccountId, kittyId: KittyIndex, price: nat) returns (r: Outcome<Error>)
      modifies this`balances, this`bids, this`events
      ensures Reserve(old(balances), who, price).Failure? ==>
        r == Err(Currency(InsufficientBalance)) && balances == old(balances) && bids == old(bids) && events == old(events)
      ensures Reserve(old(balances), who, price).Success? ==>
        r == Ok && balances == Reserve(old(balances), who, price).value &&
        bids == old(bids)[kittyId := BidsOf(old(bids), kittyId) + [BidEntry(who, price)]] &&
        events == old(events) + [KittyBid(who, kittyId, price)]
      ensures old(Valid()) ==> Valid()
    {
      var reserved := Reserve(balances, who, price);
      if reserved.Failure? {
        return Err(Currency(reserved.error));
      }
      balances := reserved.value;
      if kittyId in bids {
        bids := bids[kittyId := bids[kittyId] + [BidEntry(who, price)]];
      } else {
        assert BidsOf(bids, kittyId) + [BidEntry(who, price)] == [BidEntry(who, price)];
        bids := bids[kittyId := [BidEntry(who, price)]];
      }
      events := events + [KittyBid(who, kittyId, price)];
      r := Ok;
    }

    /**
     * The inner loop of `try_complete_sale`: unreserves every bid of the list
     * in order and tracks the first bid with the strictly greatest price.
     */
    method RefundBids(list: seq<BidEntry>) returns (bidder: Option<AccountId>, highest: nat)
      modifies this`balances
      ensures balances == RefundAll(old(balances), list)
      ensures (bidder, highest) == Best(list)
    {
      bidder, highest := None, 0;
      var j := 0;
      while j < |list|
        invariant 0 <= j <= |list|
        invariant balances == RefundAll(old(balances), list[..j])
        invariant (bidder, highest) == Best(list[..j])
      {
        assert list[..j + 1][..j] == list[..j];
        balances := Unreserve(balances, list[j].bidder, list[j].price);
        if list[j].price > highest {
          highest := list[j].price;
          bidder := Some(list[j].bidder);
        }
        j := j + 1;
      }
      assert list[..j] == list;
    }

    /** The body of the sweep for one listing key, as `SettleListing` says; `ok` is false on a panic. */
    method SettleOne(id: KittyIndex, n: BlockNumber) returns (ok: bool)
      requires id in onSale
      modifies this`owner, this`onSale, this`balances
      ensures SettleListing(old(State()), id, n).Some? ==> ok && State() == SettleListing(old(State()), id, n).value
      ensures SettleListing(old(State()), id, n).None? ==> !ok
    {
      if onSale[id] != n {
        return true;
      }
      if id !in owner {
        return false;
      }
      var kittyOwner := owner[id];
      if id in bids {
        var bidder, highest := RefundBids(bids[id]);
        if highest > 0 {
          var paid := Ledger.Transfer(balances, bidder.value, kittyOwner, highest);
          if paid.Failure? {
            return false;
          }
          balances := paid.value;
          owner := owner[id := bidder.value];
          onSale := onSale - {id};
        }
      }
      ok := true;
    }

    /**
     * `try_complete_sale(n)`, run from `on_initialize`: settles each listing
     * in iteration order as `Sweep` says. `ok` is false when the sweep
     * panicked, and then the block's changes are discarded.
     */
    method OnInitialize(n: BlockNumber, order: seq<KittyIndex>) returns (ok: bool)
      requires ListingOrder(onSale, order)
      modifies this`owner, this`onSale, this`balances
      ensures Sweep(old(State()), n, order).Some? ==> ok && State() == Sweep(old(State()), n, order).value
      ensures Sweep(old(State()), n, order).None? ==> !ok && State() == old(State())
    {
      var s0 := State();
      var i := 0;
      while i < |order|
        invariant 0 <= i <= |order|
        invariant Sweep(s0, n, order[..i]) == Some(State())
      {
        var id := order[i];
        assert order[..i + 1][..i] == order[..i];
        if id in onSale {
          var settled := SettleOne(id, n);
          if !settled {
            owner, onSale, balances := s0.owner, s0.onSale, s0.balances;
            SweepPanicPersists(s0, n, order, i + 1);
            return false;
          }
        }
        i := i + 1;
      }
      assert order[..i] == order;
      ok := true;
    }

    /** `run_to_block` one step: the block number advances and the sweep runs for the new block. */
    method Tick(order: seq<KittyIndex>) returns (ok: bool)
      requires ListingOrder(onSale, order)
      modifies this`block, this`owner, this`onSale, this`balances
      ensures block == old(block) + 1
      ensures Sweep(old(State()), block, order).Some? ==> ok && State() == Sweep(old(State()), block, order).value
      ensures Sweep(old(State()), block, order).None? ==> !ok && State() == old(State())
    {
      block := block + 1;
      ok := OnInitialize(block, order);
    }
  }

  /** Once a prefix of the sweep panics, the whole sweep panics. */
  lemma {:induction false} SweepPanicPersists(s: Storage, n: BlockNumber, order: seq<KittyIndex>, i: nat)
    requires i <= |order|
    requires Sweep(s, n, order[..i]).None?
    ensures Sweep(s, n, order).None?
    decreases |order| - i
  {
    if i < |order| {
      assert order[..i + 1][..i] == order[..i];
      SweepPanicPersists(s, n, order, i + 1);
    } else {
      assert order[..i] == order;
    }
  }
}

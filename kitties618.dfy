/**
 * The kitties pallet of homework-4/618: every kitty and every live bid is
 * backed by a staking deposit (`KittyStake`) held in reserve, a listing has
 * an end block and a floor price, each kitty has a single best-bid slot, and
 * `on_initialize` settles the listings that end at the current block. The
 * pallet also keeps a bounded buffer of reported prices with a saturating
 * average, and migrates v0 kitties (dna only) to v1 kitties (dna and price).
 *
 * Every dispatchable is transactional: when it returns an error or panics,
 * storage is as before the call. Randomness is the `selector` input.
 */
module Kitties618 {
  import opened Common
  import opened MapSum
  import opened Ledger
  import opened Dna

  type KittyIndex = u32
  type BlockNumber = nat

  /** `STORAGE_VERSION`: the layout this code expects. */
  const STORAGE_VERSION: nat := 1

  datatype Kitty = Kitty(dna: Dna, price: u32)

  /** A `KittyOnSale` entry: the end block and the floor price. */
  datatype Listing = Listing(until: BlockNumber, floor: nat)

  /** A `KittiesBid` entry: the best bidder and the amount bid. */
  datatype BidEntry = BidEntry(bidder: AccountId, amount: nat)

  datatype Error =
    | InvalidKittyId
    | NotOwner
    | KittyIdOverflow
    | NotEnoughForStaking
    | TransferToSelf
    | KittyAlreadyOnSale
    | KittyNotONSale
    | BidderIsOwner
    | PriceNotHigh

  datatype Event =
    | KittyCreated(creator: AccountId, index: KittyIndex, data: Dna)
    | KittyTransfered(oldOwner: AccountId, newOwner: AccountId, kittyId: KittyIndex)
    | KittyOnSaled(owner: AccountId, kittyId: KittyIndex)
    | KittyBided(bidder: AccountId, kittyId: KittyIndex)
    | NewPrice(price: u32, maybeWho: Option<AccountId>)

  /** The storage items the dispatchables and the sweep use, with the currency's balances. */
  datatype Storage = Storage(
    nextKittyId: KittyIndex,
    kitties: map<KittyIndex, Kitty>,
    owner: map<KittyIndex, AccountId>,
    onSale: map<KittyIndex, Listing>,
    bid: map<KittyIndex, BidEntry>,
    balances: Balances)

  /**
   * What the dispatchables keep true: owned ids lie below the counter, every
   * stored, listed or bid-on kitty has an owner, and a bid needs a listing.
   */
  ghost predicate Consistent(s: Storage)
  {
    (forall id :: id in s.owner ==> id < s.nextKittyId) &&
    s.kitties.Keys <= s.owner.Keys &&
    s.onSale.Keys <= s.owner.Keys &&
    s.bid.Keys <= s.onSale.Keys
  }

  /** `KittyOwner::get(id) == Some(who)`. */
  predicate Owns(owner: map<KittyIndex, AccountId>, id: KittyIndex, who: AccountId)
  {
    id in owner && owner[id] == who
  }

  // ---------------------------------------------------------------------
  // Stake accounting.
  // ---------------------------------------------------------------------

  /** The ids that `m` maps to `a`. */
  ghost function Holdings(m: map<KittyIndex, AccountId>, a: AccountId): set<KittyIndex>
  {
    set id | id in m && m[id] == a
  }

  /** The bidder of each bid slot. */
  function Bidders(bid: map<KittyIndex, BidEntry>): map<KittyIndex, AccountId>
  {
    map id | id in bid :: bid[id].bidder
  }

  /** How many stakes `a` owes: one per kitty owned and one per best bid held. */
  ghost function Stakes(owner: map<KittyIndex, AccountId>, bid: map<KittyIndex, BidEntry>, a: AccountId): nat
  {
    |Holdings(owner, a)| + |Holdings(Bidders(bid), a)|
  }

  /**
   * The escrow invariant: every account's reserved balance is exactly one
   * stake per kitty it owns and per bid slot it holds, so no stake is ever
   * held twice or left locked behind a superseded bid.
   */
  ghost predicate Escrowed(owner: map<KittyIndex, AccountId>, bid: map<KittyIndex, BidEntry>, b: Balances, stake: nat)
  {
    forall a {:trigger Stakes(owner, bid, a)} :: Reserved(b, a) == stake * Stakes(owner, bid, a)
  }

  /** Rebinding `id` to `to` moves `id` between two holdings. */
  lemma {:induction false} HoldingsAssign(m: map<KittyIndex, AccountId>, id: KittyIndex, to: AccountId, a: AccountId)
    ensures |Holdings(m[id := to], a)| + (if Owns(m, id, a) then 1 else 0) ==
            |Holdings(m, a)| + (if a == to then 1 else 0)
  {
    var h := Holdings(m, a);
    if a == to {
      assert Holdings(m[id := to], a) == h + {id};
    } else if Owns(m, id, a) {
      assert Holdings(m[id := to], a) == h - {id};
      assert h == (h - {id}) + {id};
    } else {
      assert Holdings(m[id := to], a) == h;
    }
  }

  /** Removing `id` takes it out of its holder's holding. */
  lemma {:induction false} HoldingsRemove(m: map<KittyIndex, AccountId>, id: KittyIndex, a: AccountId)
    ensures |Holdings(m - {id}, a)| + (if Owns(m, id, a) then 1 else 0) == |Holdings(m, a)|
  {
    var h := Holdings(m, a);
    if Owns(m, id, a) {
      assert Holdings(m - {id}, a) == h - {id};
      assert h == (h - {id}) + {id};
    } else {
      assert Holdings(m - {id}, a) == h;
    }
  }

  lemma MulStep(k: nat, n: nat)
    ensures k * (n + 1) == k * n + k
  {
  }

  /** An account that holds something owes at least one stake. */
  lemma {:induction false} HolderOwesStake(owner: map<KittyIndex, AccountId>, bid: map<KittyIndex, BidEntry>, b: Balances, stake: nat, id: KittyIndex, a: AccountId)
    requires Escrowed(owner, bid, b, stake)
    requires Owns(owner, id, a) || Owns(Bidders(bid), id, a)
    ensures stake <= Reserved(b, a)
  {
    var n := Stakes(owner, bid, a);
    if Owns(owner, id, a) {
      assert id in Holdings(owner, a);
    } else {
      assert id in Holdings(Bidders(bid), a);
    }
    MulStep(stake, n - 1);
  }

  /** `create_with_stake`: the creator reserves one stake and gains one kitty. */
  lemma {:induction false} CreateKeepsEscrow(owner: map<KittyIndex, AccountId>, bid: map<KittyIndex, BidEntry>, b: Balances, stake: nat, who: AccountId, id: KittyIndex)
    requires Escrowed(owner, bid, b, stake)
    requires id !in owner
    requires Reserve(b, who, stake).Success?
    ensures Escrowed(owner[id := who], bid, Reserve(b, who, stake).value, stake)
  {
    var c := Reserve(b, who, stake).value;
    forall a ensures Reserved(c, a) == stake * Stakes(owner[id := who], bid, a) {
      HoldingsAssign(owner, id, who, a);
      var n := Stakes(owner, bid, a);
      assert Reserved(b, a) == stake * n;
      if a == who {
        assert Stakes(owner[id := who], bid, a) == n + 1;
        MulStep(stake, n);
      } else {
        assert Stakes(owner[id := who], bid, a) == n;
      }
    }
  }

  /** `transfer`: the recipient reserves a stake, the old owner's is released. */
  lemma {:induction false} TransferKeepsEscrow(owner: map<KittyIndex, AccountId>, bid: map<KittyIndex, BidEntry>, b: Balances, stake: nat, who: AccountId, to: AccountId, id: KittyIndex)
    requires Escrowed(owner, bid, b, stake)
    requires Owns(owner, id, who) && who != to
    requires Reserve(b, to, stake).Success?
    ensures Escrowed(owner[id := to], bid, Unreserve(Reserve(b, to, stake).value, who, stake), stake)
  {
    var c := Reserve(b, to, stake).value;
    HolderOwesStake(owner, bid, b, stake, id, who);
    var d := Unreserve(c, who, stake);
    forall a ensures Reserved(d, a) == stake * Stakes(owner[id := to], bid, a) {
      HoldingsAssign(owner, id, to, a);
      var n, n' := Stakes(owner, bid, a), Stakes(owner[id := to], bid, a);
      if a == to {
        assert n' == n + 1;
        MulStep(stake, n);
        assert Reserved(d, a) == Reserved(b, a) + stake;
      } else if a == who {
        assert n == n' + 1;
        MulStep(stake, n');
        assert Reserved(d, a) + stake == Reserved(b, a);
      } else {
        assert n == n';
        assert Reserved(d, a) == Reserved(b, a);
      }
    }
  }

  lemma {:induction false} BiddersAssign(bid: map<KittyIndex, BidEntry>, id: KittyIndex, e: BidEntry)
    ensures Bidders(bid[id := e]) == Bidders(bid)[id := e.bidder]
  {
  }

  lemma {:induction false} BiddersRemove(bid: map<KittyIndex, BidEntry>, id: KittyIndex)
    ensures Bidders(bid - {id}) == Bidders(bid) - {id}
  {
  }

  /** `bid`: the new bidder reserves a stake, the superseded bidder's is released. */
  lemma {:induction false} BidKeepsEscrow(owner: map<KittyIndex, AccountId>, bid: map<KittyIndex, BidEntry>, b: Balances, stake: nat, who: AccountId, id: KittyIndex, amount: nat)
    requires Escrowed(owner, bid, b, stake)
    requires Reserve(b, who, stake).Success?
    ensures var c := Reserve(b, who, stake).value;
      Escrowed(owner, bid[id := BidEntry(who, amount)], if id in bid then Unreserve(c, bid[id].bidder, stake) else c, stake)
  {
    var c := Reserve(b, who, stake).value;
    var d := if id in bid then Unreserve(c, bid[id].bidder, stake) else c;
    var bid' := bid[id := BidEntry(who, amount)];
    BiddersAssign(bid, id, BidEntry(who, amount));
    if id in bid {
      HolderOwesStake(owner, bid, b, stake, id, bid[id].bidder);
    }
    forall a ensures Reserved(d, a) == stake * Stakes(owner, bid', a) {
      HoldingsAssign(Bidders(bid), id, who, a);
      var was := Owns(Bidders(bid), id, a);
      var n, n' := Stakes(owner, bid, a), Stakes(owner, bid', a);
      if a == who && !was {
        assert n' == n + 1;
        MulStep(stake, n);
        assert Reserved(d, a) == Reserved(b, a) + stake;
      } else if a != who && was {
        assert n == n' + 1;
        MulStep(stake, n');
        assert Reserved(d, a) + stake == Reserved(b, a);
      } else {
        assert n == n';
        assert Reserved(d, a) == Reserved(b, a);
      }
    }
  }

  /**
   * Settlement: the old owner's stake is released and the bidder's stake
   * stays reserved, now backing the kitty instead of the bid.
   */
  lemma {:induction false} SettleKeepsEscrow(owner: map<KittyIndex, AccountId>, bid: map<KittyIndex, BidEntry>, b: Balances, stake: nat, id: KittyIndex, paid: Balances)
    requires Escrowed(owner, bid, b, stake)
    requires id in owner && id in bid
    requires Ledger.Transfer(Unreserve(b, owner[id], stake), bid[id].bidder, owner[id], bid[id].amount) == Success(paid)
    ensures Escrowed(owner[id := bid[id].bidder], bid - {id}, paid, stake)
  {
    var seller, buyer := owner[id], bid[id].bidder;
    HolderOwesStake(owner, bid, b, stake, id, seller);
    BiddersRemove(bid, id);
    assert Owns(Bidders(bid), id, buyer);
    forall a ensures Reserved(paid, a) == stake * Stakes(owner[id := buyer], bid - {id}, a) {
      HoldingsAssign(owner, id, buyer, a);
      HoldingsRemove(Bidders(bid), id, a);
      assert Reserved(b, a) == stake * Stakes(owner, bid, a);
      if a == seller {
        MulStep(stake, Stakes(owner[id := buyer], bid - {id}, a));
      }
    }
  }

  // ---------------------------------------------------------------------
  // The settlement sweep of `on_initialize` as functions on storage.
  // ---------------------------------------------------------------------

  /**
   * One listing of the sweep at block `n`. A listing that ends at `n` and has
   * both a bid and an owner is settled: the owner's stake is unreserved, the
   * bid amount is paid from the bidder's free balance keeping the bidder
   * alive, the bidder becomes the owner, and listing and bid are removed.
   * `None` is the panic of a failing payment. Any other listing is left as it is.
   * The `fetch_price` call that follows the writes is taken in its `Err`
   * branch, which only logs.
   */
  function SettleListing(s: Storage, id: KittyIndex, n: BlockNumber, stake: nat): Option<Storage>
    requires id in s.onSale
  {
    if s.onSale[id].until != n || id !in s.bid || id !in s.owner then Some(s)
    else
      var seller := s.owner[id];
      var winner := s.bid[id];
      match Ledger.Transfer(Unreserve(s.balances, seller, stake), winner.bidder, seller, winner.amount)
      case Failure(_) => None
      case Success(paid) =>
        Some(s.(balances := paid, owner := s.owner[id := winner.bidder],
                onSale := s.onSale - {id}, bid := s.bid - {id}))
  }

  /** The sweep over the listing keys in iteration order; `None` when some listing panics. */
  function Sweep(s: Storage, n: BlockNumber, stake: nat, order: seq<KittyIndex>): Option<Storage>
    decreases |order|
  {
    if order == [] then Some(s)
    else
      match Sweep(s, n, stake, order[..|order| - 1])
      case None => None
      case Some(t) =>
        var id := order[|order| - 1];
        if id in t.onSale then SettleListing(t, id, n, stake) else Some(t)
  }

  /** `order` enumerates the listing keys, each once: a snapshot of `KittyOnSale::iter()`. */
  ghost predicate ListingOrder(onSale: map<KittyIndex, Listing>, order: seq<KittyIndex>)
  {
    (forall id :: id in onSale <==> id in order) &&
    (forall i, j :: 0 <= i < j < |order| ==> order[i] != order[j])
  }

  /**
   * A settled listing: the winner owns the kitty, listing and bid are gone,
   * the seller gets the stake back and is paid the bid amount, and the
   * winner's stake stays reserved.
   */
  lemma SettleListingEffect(s: Storage, id: KittyIndex, n: BlockNumber, stake: nat)
    requires id in s.onSale && s.onSale[id].until == n && id in s.bid && id in s.owner
    requires s.owner[id] != s.bid[id].bidder && stake <= Reserved(s.balances, s.owner[id])
    requires SettleListing(s, id, n, stake).Some?
    ensures var t := SettleListing(s, id, n, stake).value;
      var seller, buyer := s.owner[id], s.bid[id].bidder;
      t.owner == s.owner[id := buyer] && t.onSale == s.onSale - {id} && t.bid == s.bid - {id} &&
      Free(t.balances, seller) == Free(s.balances, seller) + stake + s.bid[id].amount &&
      Reserved(t.balances, seller) + stake == Reserved(s.balances, seller) &&
      Free(t.balances, buyer) + s.bid[id].amount == Free(s.balances, buyer) &&
      Reserved(t.balances, buyer) == Reserved(s.balances, buyer)
  {
  }

  /** A due listing whose bidder cannot pay keeping the account alive panics the sweep. */
  lemma SettleListingPanics(s: Storage, id: KittyIndex, n: BlockNumber, stake: nat)
    requires id in s.onSale && s.onSale[id].until == n && id in s.bid && id in s.owner
    requires s.owner[id] != s.bid[id].bidder && 0 < s.bid[id].amount
    requires Free(s.balances, s.bid[id].bidder) < s.bid[id].amount
    ensures SettleListing(s, id, n, stake).None?
  {
  }

  /**
   * What the sweep at block `n` never touches: the kitties, the counter,
   * listings ending at another block or without a bid, and the owners and
   * bids of listings it does not settle.
   */
  lemma {:induction false} SweepFrame(s: Storage, n: BlockNumber, stake: nat, order: seq<KittyIndex>)
    requires Sweep(s, n, stake, order).Some?
    ensures var t := Sweep(s, n, stake, order).value;
      t.kitties == s.kitties && t.nextKittyId == s.nextKittyId &&
      t.onSale.Keys <= s.onSale.Keys && t.owner.Keys == s.owner.Keys && t.bid.Keys <= s.bid.Keys &&
      (forall id :: id in s.onSale && (s.onSale[id].until != n || id !in s.bid) ==>
        id in t.onSale && t.onSale[id] == s.onSale[id] && (id in s.owner ==> t.owner[id] == s.owner[id])) &&
      (forall id :: id in t.onSale ==> t.onSale[id] == s.onSale[id]) &&
      (forall id :: id in t.bid ==> t.bid[id] == s.bid[id]) &&
      (forall id :: id in s.owner && id !in s.bid ==> t.owner[id] == s.owner[id])
    decreases |order|
  {
    if order != [] {
      SweepFrame(s, n, stake, order[..|order| - 1]);
    }
  }

  /** The sweep moves funds but creates none. */
  lemma {:induction false} SweepKeepsTotal(s: Storage, n: BlockNumber, stake: nat, order: seq<KittyIndex>)
    requires Sweep(s, n, stake, order).Some?
    ensures Total(Sweep(s, n, stake, order).value.balances) == Total(s.balances)
    decreases |order|
  {
    if order != [] {
      SweepKeepsTotal(s, n, stake, order[..|order| - 1]);
      var t := Sweep(s, n, stake, order[..|order| - 1]).value;
      var id := order[|order| - 1];
      if id in t.onSale && t.onSale[id].until == n && id in t.bid && id in t.owner {
        var released := Unreserve(t.balances, t.owner[id], stake);
        UnreserveKeepsTotal(t.balances, t.owner[id], stake);
        TransferKeepsTotal(released, t.bid[id].bidder, t.owner[id], t.bid[id].amount);
      }
    }
  }

  /** The sweep keeps storage consistent and every reserved balance equal to the stakes owed. */
  lemma {:induction false} SweepKeepsInvariant(s: Storage, n: BlockNumber, stake: nat, order: seq<KittyIndex>)
    requires Consistent(s) && Escrowed(s.owner, s.bid, s.balances, stake)
    requires Sweep(s, n, stake, order).Some?
    ensures var t := Sweep(s, n, stake, order).value;
      Consistent(t) && Escrowed(t.owner, t.bid, t.balances, stake)
    decreases |order|
  {
    if order != [] {
      SweepKeepsInvariant(s, n, stake, order[..|order| - 1]);
      var t := Sweep(s, n, stake, order[..|order| - 1]).value;
      var id := order[|order| - 1];
      if id in t.onSale && t.onSale[id].until == n && id in t.bid && id in t.owner {
        var paid := SettleListing(t, id, n, stake).value.balances;
        SettleKeepsEscrow(t.owner, t.bid, t.balances, stake, id, paid);
      }
    }
  }

  /** With no listing ending at `n`, the sweep changes nothing. */
  lemma {:induction false} SweepWithoutDueListings(s: Storage, n: BlockNumber, stake: nat, order: seq<KittyIndex>)
    requires forall id :: id in s.onSale ==> s.onSale[id].until != n
    ensures Sweep(s, n, stake, order) == Some(s)
    decreases |order|
  {
    if order != [] {
      SweepWithoutDueListings(s, n, stake, order[..|order| - 1]);
    }
  }

  /** Once a prefix of the sweep panics, the whole sweep panics. */
  lemma {:induction false} SweepPanicPersists(s: Storage, n: BlockNumber, stake: nat, order: seq<KittyIndex>, i: nat)
    requires i <= |order|
    requires Sweep(s, n, stake, order[..i]).None?
    ensures Sweep(s, n, stake, order).None?
    decreases |order| - i
  {
    if i < |order| {
      assert order[..i + 1][..i] == order[..i];
      SweepPanicPersists(s, n, stake, order, i + 1);
    } else {
      assert order[..i] == order;
    }
  }

  // ---------------------------------------------------------------------
  // The price buffer.
  // ---------------------------------------------------------------------

  /**
   * The buffer after `add_price` with room for `maxPrices` prices: the price
   * is appended while there is room, else it overwrites slot `price % maxPrices`.
   * The buffer never grows past `maxPrices`, and it holds the new price.
   */
  function Pushed(prices: seq<u32>, price: u32, maxPrices: u32): (r: seq<u32>)
    requires 0 < maxPrices
    ensures |prices| < maxPrices ==> r == prices + [price]
    ensures |prices| <= maxPrices ==> |r| <= maxPrices
    ensures price in r
  {
    if |prices| < maxPrices then prices + [price]
    else
      var r := prices[price % maxPrices := price];
      assert r[price % maxPrices] == price;
      r
  }

  /**
   * In a full buffer the new price replaces the one in slot `price % maxPrices`,
   * whichever price is oldest, and every other slot keeps its price.
   */
  lemma PushedIntoFull(prices: seq<u32>, price: u32, maxPrices: u32)
    requires 0 < maxPrices <= |prices|
    ensures var r := Pushed(prices, price, maxPrices);
      |r| == |prices| && r[price % maxPrices] == price &&
      forall i :: 0 <= i < |r| && i != price % maxPrices ==> r[i] == prices[i]
  {
  }

  /**
   * `u32::saturating_add`: the sum or the cap, never below either operand
   * and never above the true sum, which fixes it.
   */
  function SaturatingAdd(a: u32, b: u32): (r: u32)
    ensures r == a + b || r == U32_MAX
    ensures a <= r && b <= r
    ensures r <= a + b
  {
    if a + b <= U32_MAX then a + b else U32_MAX
  }

  /** The fold of `average_price`: `prices.iter().fold(0, saturating_add)`. */
  function SaturatingSum(prices: seq<u32>): u32
    decreases |prices|
  {
    if prices == [] then 0
    else SaturatingAdd(SaturatingSum(prices[..|prices| - 1]), prices[|prices| - 1])
  }

  /** The exact sum of the prices. */
  function SumOf(prices: seq<u32>): nat
    decreases |prices|
  {
    if prices == [] then 0 else SumOf(prices[..|prices| - 1]) + prices[|prices| - 1]
  }

  /** `average_price`: `None` for an empty buffer, else the saturating sum divided by the length. */
  function AveragePrice(prices: seq<u32>): (r: Option<u32>)
    ensures r.None? <==> prices == []
  {
    if prices == [] then None else Some(SaturatingSum(prices) / |prices|)
  }

  /** The saturating fold is the exact sum capped at `u32::MAX`: once it saturates it stays there. */
  lemma {:induction false} SaturatingSumIsCappedSum(prices: seq<u32>)
    ensures SaturatingSum(prices) == if SumOf(prices) <= U32_MAX then SumOf(prices) else U32_MAX
    decreases |prices|
  {
    if prices != [] {
      SaturatingSumIsCappedSum(prices[..|prices| - 1]);
    }
  }

  /** The exact sum is at most the length times any upper bound of the prices. */
  lemma {:induction false} SumOfBound(prices: seq<u32>, m: nat)
    requires forall k :: 0 <= k < |prices| ==> prices[k] <= m
    ensures SumOf(prices) <= |prices| * m
    decreases |prices|
  {
    if prices != [] {
      var init := prices[..|prices| - 1];
      assert forall k :: 0 <= k < |init| ==> init[k] == prices[k];
      SumOfBound(init, m);
      MulStep(m, |init|);
      assert |prices| * m == |init| * m + m;
    }
  }

  lemma DivBound(x: nat, len: nat, m: nat)
    requires 0 < len && x <= len * m
    ensures x / len <= m
  {
    if x / len > m {
      assert len * (x / len) >= len * (m + 1) by {
        MulMonotone(len, m + 1, x / len);
      }
      MulStep(len, m);
    }
  }

  lemma MulMonotone(k: nat, a: nat, b: nat)
    requires a <= b
    ensures k * a <= k * b
  {
  }

  /**
   * The average never exceeds the greatest price; if the sum does not
   * saturate it is the floor of the exact mean.
   */
  lemma {:induction false} AverageBounds(prices: seq<u32>, m: nat)
    requires prices != []
    requires forall k :: 0 <= k < |prices| ==> prices[k] <= m
    ensures AveragePrice(prices).value <= m
    ensures SumOf(prices) <= U32_MAX ==> AveragePrice(prices).value == SumOf(prices) / |prices|
  {
    SaturatingSumIsCappedSum(prices);
    SumOfBound(prices, m);
    DivBound(SaturatingSum(prices), |prices|, m);
  }

  /** Saturation can pull the average below every price in the buffer: two prices of 2^31 average 2^31 - 1. */
  lemma SaturatedAverageBelowEveryPrice()
    ensures var prices: seq<u32> := [0x8000_0000, 0x8000_0000];
      AveragePrice(prices) == Some(0x7FFF_FFFF) && 0x7FFF_FFFF < prices[0]
  {
    var prices: seq<u32> := [0x8000_0000, 0x8000_0000];
    assert prices[..1][..0] == [];
    assert SaturatingSum(prices[..1]) == 0x8000_0000;
  }

  // ---------------------------------------------------------------------
  // The v0 -> v1 migration.
  // ---------------------------------------------------------------------

  /** The v1 `Kitties` after `migrate_to_v1`: each v0 dna becomes a kitty of price 0 under its id. */
  function Migrated(kitties: map<KittyIndex, Kitty>, v0: map<KittyIndex, Dna>): (r: map<KittyIndex, Kitty>)
    ensures r.Keys == kitties.Keys + v0.Keys
    ensures forall id :: id in v0 ==> r[id] == Kitty(v0[id], 0)
    ensures forall id :: id in kitties && id !in v0 ==> r[id] == kitties[id]
  {
    map id | id in kitties.Keys + v0.Keys :: if id in v0 then Kitty(v0[id], 0) else kitties[id]
  }

  /**
   * Moving one more v0 entry over extends the migrated map by that entry;
   * `rest` is what the drain has still to move.
   */
  lemma {:induction false} MigratedStep(kitties: map<KittyIndex, Kitty>, v0: map<KittyIndex, Dna>, rest: map<KittyIndex, Dna>, key: KittyIndex)
    requires key in rest
    requires forall id :: id in rest ==> id in v0 && rest[id] == v0[id]
    ensures Migrated(kitties, v0 - (rest - {key}).Keys) == Migrated(kitties, v0 - rest.Keys)[key := Kitty(rest[key], 0)]
  {
    var a, b := Migrated(kitties, v0 - (rest - {key}).Keys), Migrated(kitties, v0 - rest.Keys)[key := Kitty(rest[key], 0)];
    assert a.Keys == b.Keys;
    forall id | id in a
      ensures a[id] == b[id]
    {
      if id != key && id in v0 && id !in rest {
        assert id in v0 - rest.Keys;
      }
    }
  }

  /**
   * The number of v1 kitties after the migration: it is preserved, as the
   * upgrade check demands, exactly when every v0 id already had a v1 kitty.
   */
  lemma {:induction false} MigratedCount(kitties: map<KittyIndex, Kitty>, v0: map<KittyIndex, Dna>)
    ensures |Migrated(kitties, v0)| == |kitties| + |v0.Keys - kitties.Keys|
    ensures |Migrated(kitties, v0)| == |kitties| <==> v0.Keys <= kitties.Keys
  {
    var keys := Migrated(kitties, v0).Keys;
    assert keys == kitties.Keys + (v0.Keys - kitties.Keys);
    assert kitties.Keys !! (v0.Keys - kitties.Keys);
    assert |keys| == |kitties.Keys| + |v0.Keys - kitties.Keys|;
    assert v0.Keys <= kitties.Keys <==> v0.Keys - kitties.Keys == {};
  }

  class Pallet {
    var nextKittyId: KittyIndex
    var kitties: map<KittyIndex, Kitty>
    var owner: map<KittyIndex, AccountId>
    var onSale: map<KittyIndex, Listing>
    var bid: map<KittyIndex, BidEntry>
    var balances: Balances
    var block: BlockNumber
    var events: seq<Event>
    /** The bounded `Prices` buffer. */
    var prices: seq<u32>
    /** The on-chain storage version. */
    var version: nat
    /** The v0 `Kitties` map (dna only) that the migration drains. */
    var v0Kitties: map<KittyIndex, Dna>
    /** The `KittyStake` constant. */
    const stake: nat
    /** The `MaxPrices` constant. */
    const maxPrices: u32

    function State(): Storage
      reads this
    {
      Storage(nextKittyId, kitties, owner, onSale, bid, balances)
    }

    ghost predicate Valid()
      reads this
    {
      Consistent(State()) && Escrowed(owner, bid, balances, stake) &&
      |prices| <= maxPrices && v0Kitties.Keys <= owner.Keys
    }

    /** Genesis of a new chain: empty storage at the current storage version, nothing reserved. */
    constructor (free: map<AccountId, nat>, ed: nat, stake: nat, maxPrices: u32)
      ensures State() == Storage(0, map[], map[], map[], map[], Balances(free, map[], ed))
      ensures this.stake == stake && this.maxPrices == maxPrices
      ensures block == 0 && events == [] && prices == [] && version == STORAGE_VERSION && v0Kitties == map[]
      ensures Valid()
    {
      nextKittyId := 0;
      kitties := map[];
      owner := map[];
      onSale := map[];
      bid := map[];
      balances := Balances(free, map[], ed);
      block := 0;
      events := [];
      prices := [];
      version := STORAGE_VERSION;
      v0Kitties := map[];
      this.stake := stake;
      this.maxPrices := maxPrices;
    }

    /** A chain still at storage version 0, holding v0 kitties and their owners. */
    constructor FromV0(v0: map<KittyIndex, Dna>, owners: map<KittyIndex, AccountId>, next: KittyIndex, b: Balances, stake: nat, maxPrices: u32)
      ensures State() == Storage(next, map[], owners, map[], map[], b)
      ensures this.stake == stake && this.maxPrices == maxPrices
      ensures block == 0 && events == [] && prices == [] && version == 0 && v0Kitties == v0
    {
      nextKittyId := next;
      kitties := map[];
      owner := owners;
      onSale := map[];
      bid := map[];
      balances := b;
      block := 0;
      events := [];
      prices := [];
      version := 0;
      v0Kitties := v0;
      this.stake := stake;
      this.maxPrices := maxPrices;
    }

    /**
     * `create_with_stake`, behind `create` and `breed`: reserves the stake
     * (else `NotEnoughForStaking`), stores the kitty and its owner under the
     * counter, and advances the counter; at `u32::MAX` the call fails with
     * `KittyIdOverflow` and its writes are rolled back.
     */
    method CreateWithStake(who: AccountId, dna: Dna, price: u32) returns (r: Outcome<Error>)
      modifies this`balances, this`kitties, this`owner, this`nextKittyId, this`events
      ensures Reserve(old(balances), who, stake).Failure? ==>
        r == Err(NotEnoughForStaking) && State() == old(State()) && events == old(events)
      ensures Reserve(old(balances), who, stake).Success? && old(nextKittyId) == U32_MAX ==>
        r == Err(KittyIdOverflow) && State() == old(State()) && events == old(events)
      ensures Reserve(old(balances), who, stake).Success? && old(nextKittyId) < U32_MAX ==>
        var id := old(nextKittyId);
        r == Ok && balances == Reserve(old(balances), who, stake).value &&
        kitties == old(kitties)[id := Kitty(dna, price)] && owner == old(owner)[id := who] &&
        nextKittyId == id + 1 && events == old(events) + [KittyCreated(who, id, dna)]
      ensures old(Valid()) ==> Valid()
    {
      var kittyId := nextKittyId;
      var reserved := Reserve(balances, who, stake);
      if reserved.Failure? {
        return Err(NotEnoughForStaking);
      }
      // The source writes the reservation, the kitty and its owner before
      // the checked increment; a transactional call discards those writes
      // on the error, so they are committed here once the increment succeeds.
      var next := CheckedAddU32(kittyId, 1);
      if next.None? {
        return Err(KittyIdOverflow);
      }
      if old(Valid()) {
        CreateKeepsEscrow(owner, bid, balances, stake, who, kittyId);
      }
      balances := reserved.value;
      kitties := kitties[kittyId := Kitty(dna, price)];
      owner := owner[kittyId := who];
      nextKittyId := next.value;
      events := events + [KittyCreated(who, kittyId, dna)];
      r := Ok;
    }

    /**
     * `breed`: both parents must exist (`InvalidKittyId`) and belong to the
     * caller (`NotOwner`); the child's dna mixes the parents' under the
     * random selector, and it is created with a stake like any kitty.
     */
    method Breed(who: AccountId, kitty1: KittyIndex, kitty2: KittyIndex, price: u32, selector: Dna) returns (r: Outcome<Error>)
      modifies this`balances, this`kitties, this`owner, this`nextKittyId, this`events
      ensures kitty1 !in old(kitties) || kitty2 !in old(kitties) ==>
        r == Err(InvalidKittyId) && State() == old(State()) && events == old(events)
      ensures kitty1 in old(kitties) && kitty2 in old(kitties) && !(Owns(old(owner), kitty1, who) && Owns(old(owner), kitty2, who)) ==>
        r == Err(NotOwner) && State() == old(State()) && events == old(events)
      ensures r.Ok? ==>
        kitty1 in old(kitties) && kitty2 in old(kitties) && Owns(old(owner), kitty1, who) && Owns(old(owner), kitty2, who) &&
        Reserve(old(balances), who, stake).Success? &&
        var id := old(nextKittyId);
        var child := ChildDna(old(kitties)[kitty1].dna, old(kitties)[kitty2].dna, selector);
        balances == Reserve(old(balances), who, stake).value &&
        kitties == old(kitties)[id := Kitty(child, price)] && owner == old(owner)[id := who] &&
        nextKittyId == id + 1 && events == old(events) + [KittyCreated(who, id, child)]
      ensures kitty1 in old(kitties) && kitty2 in old(kitties) && Owns(old(owner), kitty1, who) && Owns(old(owner), kitty2, who) ==>
        (r.Ok? <==> Reserve(old(balances), who, stake).Success? && old(nextKittyId) < U32_MAX) &&
        (Reserve(old(balances), who, stake).Failure? ==> r == Err(NotEnoughForStaking)) &&
        (!r.Ok? ==> State() == old(State()) && events == old(events))
      ensures old(Valid()) ==> Valid()
    {
      if kitty1 !in kitties || kitty2 !in kitties {
        return Err(InvalidKittyId);
      }
      if !Owns(owner, kitty1, who) || !Owns(owner, kitty2, who) {
        return Err(NotOwner);
      }
      var child := BreedKitty(kitties[kitty1].dna, kitties[kitty2].dna, selector);
      r := CreateWithStake(who, child, price);
    }

    /**
     * `transfer`: the kitty must exist and belong to the caller, and the
     * recipient must differ from the caller; the recipient reserves the
     * stake (else `NotEnoughForStaking`), the old owner's stake is released,
     * and the recipient becomes the owner. A listing and its bid stay.
     */
    method Transfer(who: AccountId, kittyId: KittyIndex, to: AccountId) returns (r: Outcome<Error>)
      modifies this`balances, this`owner, this`events
      ensures kittyId !in old(owner) ==> r == Err(InvalidKittyId)
      ensures kittyId in old(owner) && old(owner)[kittyId] != who ==> r == Err(NotOwner)
      ensures Owns(old(owner), kittyId, who) && to == who ==> r == Err(TransferToSelf)
      ensures Owns(old(owner), kittyId, who) && to != who ==>
        (r == Ok <==> Reserve(old(balances), to, stake).Success?) &&
        (r != Ok ==> r == Err(NotEnoughForStaking))
      ensures r == Ok ==>
        owner == old(owner)[kittyId := to] &&
        balances == Unreserve(Reserve(old(balances), to, stake).value, who, stake) &&
        events == old(events) + [KittyTransfered(who, to, kittyId)]
      ensures r != Ok ==> State() == old(State()) && events == old(events)
      ensures old(Valid()) ==> Valid()
    {
      if kittyId !in owner {
        return Err(InvalidKittyId);
      }
      if owner[kittyId] != who {
        return Err(NotOwner);
      }
      if to == who {
        return Err(TransferToSelf);
      }
      var reserved := Reserve(balances, to, stake);
      if reserved.Failure? {
        return Err(NotEnoughForStaking);
      }
      if Valid() {
        TransferKeepsEscrow(owner, bid, balances, stake, who, to, kittyId);
      }
      balances := Unreserve(reserved.value, who, stake);
      owner := owner[kittyId := to];
      events := events + [KittyTransfered(who, to, kittyId)];
      r := Ok;
    }

    /** `sale`: the owner lists an unlisted kitty until a block with a floor price. */
    method Sale(who: AccountId, kittyId: KittyIndex, until: BlockNumber, floor: nat) returns (r: Outcome<Error>)
      modifies this`onSale, this`events
      ensures kittyId !in owner ==> r == Err(InvalidKittyId)
      ensures kittyId in owner && owner[kittyId] != who ==> r == Err(NotOwner)
      ensures Owns(owner, kittyId, who) && kittyId in old(onSale) ==> r == Err(KittyAlreadyOnSale)
      ensures r == Ok <==> Owns(owner, kittyId, who) && kittyId !in old(onSale)
      ensures r == Ok ==> onSale == old(onSale)[kittyId := Listing(until, floor)] && events == old(events) + [KittyOnSaled(who, kittyId)]
      ensures r != Ok ==> onSale == old(onSale) && events == old(events)
      ensures old(Valid()) ==> Valid()
    {
      if kittyId !in owner {
        return Err(InvalidKittyId);
      }
      if owner[kittyId] != who {
        return Err(NotOwner);
      }
      if kittyId in onSale {
        return Err(KittyAlreadyOnSale);
      }
      onSale := onSale[kittyId := Listing(until, floor)];
      events := events + [KittyOnSaled(who, kittyId)];
      r := Ok;
    }

    /** The first failing check of `bid`, in the order the call makes them; `None` when all pass. */
    function BidCheck(who: AccountId, kittyId: KittyIndex, price: nat): Option<Error>
      reads this
    {
      if kittyId !in owner then Some(InvalidKittyId)
      else if kittyId !in onSale then Some(KittyNotONSale)
      else if owner[kittyId] == who then Some(BidderIsOwner)
      else if price <= onSale[kittyId].floor || (kittyId in bid && price <= bid[kittyId].amount) then Some(PriceNotHigh)
      else None
    }

    /**
     * `bid`: a bid on a listed kitty of someone else must beat the floor
     * price and the current bid. The bidder reserves the stake, not the
     * amount (else `NotEnoughForStaking`); the superseded bidder's stake is
     * released and the bid slot now holds the new bid.
     */
    method Bid(who: AccountId, kittyId: KittyIndex, price: nat) returns (r: Outcome<Error>)
      modifies this`balances, this`bid, this`events
      ensures r != Ok ==> State() == old(State()) && events == old(events)
      ensures old(BidCheck(who, kittyId, price)).Some? ==> r == Err(old(BidCheck(who, kittyId, price)).value)
      ensures old(BidCheck(who, kittyId, price)).None? ==>
        (r == Ok <==> Reserve(old(balances), who, stake).Success?) &&
        (r != Ok ==> r == Err(NotEnoughForStaking))
      ensures r == Ok ==>
        old(BidCheck(who, kittyId, price)).None? &&
        var reserved := Reserve(old(balances), who, stake).value;
        balances == (if kittyId in old(bid) then Unreserve(reserved, old(bid)[kittyId].bidder, stake) else reserved) &&
        bid == old(bid)[kittyId := BidEntry(who, price)] &&
        events == old(events) + [KittyBided(who, kittyId)]
      ensures old(Valid()) ==> Valid()
    {
      var check := BidCheck(who, kittyId, price);
      if check.Some? {
        return Err(check.value);
      }
      var reserved := Reserve(balances, who, stake);
      if reserved.Failure? {
        return Err(NotEnoughForStaking);
      }
      if Valid() {
        BidKeepsEscrow(owner, bid, balances, stake, who, kittyId, price);
      }
      balances := reserved.value;
      if kittyId in bid {
        balances := Unreserve(balances, bid[kittyId].bidder, stake);
      }
      bid := bid[kittyId := BidEntry(who, price)];
      events := events + [KittyBided(who, kittyId)];
      r := Ok;
    }

    /** The body of the sweep for one listing key, as `SettleListing` says; `ok` is false on a panic. */
    method SettleOne(id: KittyIndex, n: BlockNumber) returns (ok: bool)
      requires id in onSale
      modifies this`owner, this`onSale, this`bid, this`balances
      ensures SettleListing(old(State()), id, n, stake).Some? ==> ok && State() == SettleListing(old(State()), id, n, stake).value
      ensures SettleListing(old(State()), id, n, stake).None? ==> !ok && State() == old(State())
    {
      if onSale[id].until != n || id !in bid || id !in owner {
        return true;
      }
      var winner := bid[id];
      var seller := owner[id];
      var released := Unreserve(balances, seller, stake);
      var paid := Ledger.Transfer(released, winner.bidder, seller, winner.amount);
      if paid.Failure? {
        return false;
      }
      balances := paid.value;
      owner := owner[id := winner.bidder];
      onSale := onSale - {id};
      bid := bid - {id};
      ok := true;
    }

    /**
     * `on_initialize(n)`: settles each listing in iteration order as `Sweep`
     * says. `ok` is false when the sweep panicked, and then the block's
     * changes are discarded.
     */
    method OnInitialize(n: BlockNumber, order: seq<KittyIndex>) returns (ok: bool)
      requires ListingOrder(onSale, order)
      modifies this`owner, this`onSale, this`bid, this`balances
      ensures Sweep(old(State()), n, stake, order).Some? ==> ok && State() == Sweep(old(State()), n, stake, order).value
      ensures Sweep(old(State()), n, stake, order).None? ==> !ok && State() == old(State())
      ensures old(Valid()) ==> Valid()
    {
      var s0 := State();
      ok := SweepAll(n, order);
      if ok && old(Valid()) {
        SweepKeepsInvariant(s0, n, stake, order);
        SweepFrame(s0, n, stake, order);
      }
    }

    /** The loop of `on_initialize`: settles the listings in `order`, rolling back on a panic. */
    method SweepAll(n: BlockNumber, order: seq<KittyIndex>) returns (ok: bool)
      requires ListingOrder(onSale, order)
      modifies this`owner, this`onSale, this`bid, this`balances
      ensures Sweep(old(State()), n, stake, order).Some? ==> ok && State() == Sweep(old(State()), n, stake, order).value
      ensures Sweep(old(State()), n, stake, order).None? ==> !ok && State() == old(State())
    {
      var s0 := State();
      var i := 0;
      while i < |order|
        invariant 0 <= i <= |order|
        invariant Sweep(s0, n, stake, order[..i]) == Some(State())
      {
        var id := order[i];
        assert order[..i + 1][..i] == order[..i];
        if id in onSale {
          var settled := SettleOne(id, n);
          if !settled {
            owner, onSale, bid, balances := s0.owner, s0.onSale, s0.bid, s0.balances;
            SweepPanicPersists(s0, n, stake, order, i + 1);
            return false;
          }
        }
        i := i + 1;
      }
      assert order[..i] == order;
      ok := true;
    }

    /** `run_to_block` one step: the block number advances and `on_initialize` runs for the new block. */
    method Tick(order: seq<KittyIndex>) returns (ok: bool)
      requires ListingOrder(onSale, order)
      modifies this`block, this`owner, this`onSale, this`bid, this`balances
      ensures block == old(block) + 1
      ensures Sweep(old(State()), block, stake, order).Some? ==> ok && State() == Sweep(old(State()), block, stake, order).value
      ensures Sweep(old(State()), block, stake, order).None? ==> !ok && State() == old(State())
      ensures old(Valid()) ==> Valid()
    {
      block := block + 1;
      ok := OnInitialize(block, order);
    }

    /**
     * `add_price`: appends while the buffer holds fewer than `MaxPrices`
     * prices, else overwrites the slot `price % MaxPrices`; with
     * `MaxPrices == 0` the remainder panics. The average is then defined.
     */
    method AddPrice(maybeWho: Option<AccountId>, price: u32) returns (r: Outcome<Error>)
      modifies this`prices, this`events
      ensures maxPrices == 0 ==> r == Panic && prices == old(prices) && events == old(events)
      ensures 0 < maxPrices ==> r == Ok && events == old(events) + [NewPrice(price, maybeWho)]
      ensures 0 < maxPrices ==> prices == Pushed(old(prices), price, maxPrices)
      ensures r == Ok ==> AveragePrice(prices).Some?
      ensures old(Valid()) ==> Valid()
    {
      if |prices| < maxPrices {
        prices := prices + [price];
      } else if maxPrices == 0 {
        return Panic;
      } else {
        prices := prices[price % maxPrices := price];
      }
      var average := AveragePrice(prices);
      assert average.Some?;
      events := events + [NewPrice(price, maybeWho)];
      r := Ok;
    }

    /**
     * `migrate_to_v1`, run by `on_runtime_upgrade`: at storage version 0 it
     * drains the v0 map into v1 kitties of price 0 and sets the version to 1;
     * at any other version it does nothing. The weight is always 0.
     */
    method MigrateToV1() returns (weight: nat)
      modifies this`kitties, this`v0Kitties, this`version
      ensures old(version) == 0 ==>
        kitties == Migrated(old(kitties), old(v0Kitties)) && v0Kitties == map[] && version == 1
      ensures old(version) != 0 ==>
        kitties == old(kitties) && v0Kitties == old(v0Kitties) && version == old(version)
      ensures weight == 0
      ensures old(Valid()) ==> Valid()
    {
      if version == 0 {
        DrainV0();
        version := 1;
      }
      weight := 0;
    }

    /** The drain loop of `migrate_to_v1`, in any key order. */
    method DrainV0()
      modifies this`kitties, this`v0Kitties
      ensures kitties == Migrated(old(kitties), old(v0Kitties)) && v0Kitties == map[]
    {
      var k0, o0 := kitties, v0Kitties;
      while v0Kitties != map[]
        invariant forall id :: id in v0Kitties ==> id in o0 && v0Kitties[id] == o0[id]
        invariant kitties == Migrated(k0, o0 - v0Kitties.Keys)
        decreases v0Kitties.Keys
      {
        var key :| key in v0Kitties;
        var rest := v0Kitties - {key};
        assert kitties[key := Kitty(v0Kitties[key], 0)] == Migrated(k0, o0 - rest.Keys) by {
          MigratedStep(k0, o0, v0Kitties, key);
        }
        kitties := kitties[key := Kitty(v0Kitties[key], 0)];
        v0Kitties := rest;
      }
      assert o0 - v0Kitties.Keys == o0;
    }

    /** `pre_upgrade`: the number of v1 kitties, cast to `u32`. */
    method PreUpgrade() returns (count: u32)
      ensures count == TruncateU32(|kitties|)
    {
      count := TruncateU32(|kitties|);
    }

    /** `post_upgrade`: panics unless the number of v1 kitties equals the recorded count. */
    method PostUpgrade(prevCount: u32) returns (r: Outcome<Error>)
      ensures r == Ok || r == Panic
      ensures r == Ok <==> prevCount == TruncateU32(|kitties|)
    {
      if prevCount != TruncateU32(|kitties|) {
        return Panic;
      }
      r := Ok;
    }

    /** `integrity_test`: panics unless `NextKittyId` is 0. */
    method IntegrityTest() returns (r: Outcome<Error>)
      ensures r == Ok || r == Panic
      ensures r == Ok <==> nextKittyId == 0
    {
      if nextKittyId != 0 {
        return Panic;
      }
      r := Ok;
    }
  }
}

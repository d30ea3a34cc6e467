# Kitties, proof of existence and ERC-20 on Substrate and ink!, in Dafny

This project models the on-chain logic of several pieces of the
substrate-advance-8-homework repository:

- **Kitties pallets.** Four versions of a Substrate FRAME pallet that mints
  collectible "kitties" (a 16-byte dna), breeds them, transfers them,
  lists them for sale and settles bids against a currency:
  - homework-3/672, homework-3/610 and homework-3/676;
  - homework-4/618, with staking deposits, a bounded buffer of reported
    prices and a storage migration from v0 to v1.
- **Proof of existence.** The PoE pallet of homework-1/629, which records
  claims.
- **ERC-20 contracts.** Seven ink! contracts:
  - homework-6/658, 677 and 693, which share one logic;
  - homework-6/22, 640, 629 and 597.

How the model is built:

- **Pallets and contracts.** Each pallet and each contract is a Dafny
  `class`. Its storage items are `map` fields. A `seq` log keeps the
  deposited events.
- **Methods.** Each dispatchable or message is a method. Its `ensures`
  gives the new storage and the result for every branch of the source,
  often through a pure function on a `Storage` value.
- **Invariants and lemmas.** Invariants are `Valid()` predicates, and each
  method keeps them (`old(Valid()) ==> Valid()`). Among them:
  - ids below the counter;
  - the 618 escrow: every kitty and every standing bid backed by exactly
    one stake in reserve;
  - ERC-20 balances summing to the total supply.

  Lemmas state the properties that hold across calls: conservation of
  value, sweep frames, commutation of PoE calls on different claims,
  migration results and the price average's bounds.
- **Outcomes.** `Outcome` has three results:
  - `Ok`;
  - `Err(e)`, for an error the code returns;
  - `Panic`, for an `unwrap`, `expect`, indexing failure or arithmetic
    trap in the source.

  A pallet call that ends in `Err` or `Panic` leaves storage as before,
  because FRAME dispatchables are transactional. In the ink! contracts a
  trap reverts the message. An `Err` result keeps the writes made before
  it, following the off-chain test environment the contracts' unit tests
  run in.
- **Inputs.** Randomness (`random_value`) is an input: a dna or a
  selector. The block number is a field that `Tick` advances. The
  iteration order of a storage map is an input sequence `order` that lists
  the map's keys once each. The balances pallet is the `Ledger` module:
  free and reserved balances per account and an existential deposit.

Modules:

| module | file | models |
|---|---|---|
| `Common` | common.dfy | integer widths, checked and truncating arithmetic, `Option`, `Result`, `Outcome` |
| `MapSum` | mapsum.dfy | the sum of a map's values, used for conservation |
| `Ledger` | ledger.dfy | the `Currency` operations the pallets call: `reserve`, `unreserve`, `transfer` with `KeepAlive` |
| `Dna` | dna.dfy | `breed_kitty`'s bitwise mix and `can_breed` |
| `Kitties672`, `Kitties610`, `Kitties676`, `Kitties618` | kitties*.dfy | the four kitties pallets |
| `Kitties672Tests` … `Kitties618Tests` | kitties*_tests.dfy | the pallets' unit tests replayed on the model |
| `Poe` | poe.dfy | the proof-of-existence pallet |
| `Token` | token.dfy | the balance and allowance mappings and the two ways contracts move a balance |
| `Erc20Std`, `Erc20v22`, `Erc20v640`, `Erc20v629`, `Erc20v597` | erc20_*.dfy | the ERC-20 contracts |
| `Erc20Tests` | erc20_tests.dfy | the contracts' unit tests, and scenarios that separate them |

Where the code differs from what an ERC-20 token promises, the model
follows the code. The lemmas and scenarios show these differences:

- In 22, 640 and 597 a transfer to oneself mints `value`.
- In 22, 640 and 597 a `transfer_from` whose transfer fails still spends
  the allowance.
- In 629 `transfer_from` reads the allowance under the key
  `(caller, from)`. So an approval lets the approver draw on the
  spender's balance, and not the other way round.

Two more places where the model follows the code:

- **618 `post_upgrade`.** It compares against a count of v1 kitties taken
  before any v0 migration, so it panics whenever v0 kitties were migrated.
- **Bid order.** 610 keeps bids newest first and lets the earliest bid
  buy the kitty. 676 silently drops a bid when the list is full, but still
  raises the highest price.

## Model

| member | source | states |
|---|---|---|
| Common.CheckedAddU32 | homework-3/672/kitties/src/impls.rs:35-41 | `checked_add` on `u32`: a value exactly when the sum fits, and then the sum |
| Common.TruncateU32 | homework-4/618/pallets/kitties/src/hooks.rs:101-105 | `count() as u32`: the count itself when it fits, never more than it |
| Common.CheckedAddU128 | homework-6/658/erc20/lib.rs:210-211 | `checked_add` on `u128`: a value exactly when the sum fits, and then the sum |
| Common.GetOrZero | homework-6/658/erc20/lib.rs:96-98 | a `ValueQuery`/`unwrap_or_default` read: the stored value, or 0 for an absent key |
| Ledger.Reserve | homework-3/672/kitties/src/extrinsics.rs:121 | `reserve` succeeds iff the free balance covers the amount; the amount moves from free to reserved and no other account changes |
| Ledger.Unreserve | homework-3/672/kitties/src/impls.rs:57 | `unreserve` frees `min(amount, reserved)` and leaves every other account alone |
| Ledger.Transfer | homework-3/610/pallets/kitties/src/extrinsics.rs:134 | `transfer` with `KeepAlive` checks the sender first: `FundsUnavailable` when its free balance is short, `NotExpendable` when its free balance would drop below the existential deposit (reserved balance does not count), then `BelowMinimum` when the recipient's free balance would stay below it; on success `from` loses and `to` gains the amount, the sender stays alive, reserves are untouched |
| Ledger.ReserveKeepsTotal | homework-3/672/kitties/src/extrinsics.rs:121 | reserving does not change the total value held |
| Ledger.UnreserveKeepsTotal | homework-3/672/kitties/src/impls.rs:57 | unreserving does not change the total value held |
| Ledger.TransferKeepsTotal | homework-3/610/pallets/kitties/src/extrinsics.rs:134 | a successful transfer does not change the total value held |
| Ledger.ReserveThenUnreserve | homework-4/618/pallets/kitties/src/hooks.rs:24 | unreserving what was just reserved restores every account's holdings |
| Dna.MuxSelectsBits | homework-3/672/kitties/src/impls.rs:30 | `(a & sel) \| (b & !sel)` takes each bit from `a` where the selector bit is 1 and from `b` where it is 0 |
| Dna.ChildOfIdenticalParents | homework-3/672/kitties/src/impls.rs:24-33 | breeding a dna with itself gives that dna, whatever the selector |
| Dna.ChildBits | homework-3/672/kitties/src/impls.rs:24-33 | every bit of every child byte comes from the parent the selector names |
| Dna.BreedKitty | homework-3/672/kitties/src/impls.rs:24-33 | the byte loop fills the child with the mix of the two parents, byte for byte |
| Dna.CanBreedIsGenderMismatch | homework-3/672/kitties/src/impls.rs:43-47 | two kitties can breed iff their gender bits differ; symmetric; never with itself |
| Kitties672.BreedCheckMissingParent | homework-3/672/kitties/src/extrinsics.rs:32-48 | a missing first parent is reported as `NotOwner`, because the owner check comes first; `InvalidKittyId` only for a missing second parent |
| Kitties672.Best | homework-3/672/kitties/src/impls.rs:49-78 | the best bid has a positive price exactly when there is a bidder |
| Kitties672.BestIsFirstGreatest | homework-3/672/kitties/src/impls.rs:49-78 | the winning price is the highest, and the winner is the first bidder to offer it |
| Kitties672.BestOfZeroBids | homework-3/672/kitties/src/impls.rs:49-78 | bids that are all 0 elect nobody |
| Kitties672.RefundAllReleasesBids | homework-3/672/kitties/src/impls.rs:56-62 | refunding a listing's bids frees, for each account, the total it bid |
| Kitties672.RefundAllKeepsTotal | homework-3/672/kitties/src/impls.rs:56-62 | refunding bids does not change the total value held |
| Kitties672.SettleListingEffect | homework-3/672/kitties/src/impls.rs:49-78 | a listing ending at `n` with no bids stays; with zero bids stays after refunds; otherwise the kitty goes to the best bidder, the listing is removed and the seller is paid the best price |
| Kitties672.SweepFrame | homework-3/672/kitties/src/impls.rs:49-78 | the sweep changes only owners and listings of kitties due at `n`, and never kitties, bids or the counter |
| Kitties672.SweepKeepsTotal | homework-3/672/kitties/src/impls.rs:49-78 | the sweep does not change the total value held |
| Kitties672.SweepKeepsConsistent | homework-3/672/kitties/src/impls.rs:49-78 | the sweep keeps the storage invariant |
| Kitties672.SweepWithoutDueListings | homework-3/672/kitties/src/impls.rs:49-78 | with no listing due at `n` the sweep changes nothing |
| Kitties672.SweepPanicPersists | homework-3/672/kitties/src/impls.rs:49-78 | once a listing's settlement fails, the whole sweep fails |
| Kitties672.Pallet.constructor | homework-3/672/kitties/src/lib.rs:64-87 | genesis: empty storage, counter 0 |
| Kitties672.Pallet.NextKittyId | homework-3/672/kitties/src/impls.rs:35-41 | `next_kitty_id` inserts the kitty, then returns the id and bumps the counter, or `KittyIdOverflow` at `u32::MAX` |
| Kitties672.Pallet.Create | homework-3/672/kitties/src/extrinsics.rs:10-28 | `create`: the next id is minted to the caller with an event, or `KittyIdOverflow` with nothing changed |
| Kitties672.Pallet.Breed | homework-3/672/kitties/src/extrinsics.rs:32-65 | `breed`: the checks' error; a panic when the second parent's owner is missing; a breed fee paid to the co-parent's owner; the child minted to the caller |
| Kitties672.Pallet.Transfer | homework-3/672/kitties/src/extrinsics.rs:69-89 | `transfer` succeeds iff the caller owns the kitty, and then changes its owner and emits the event |
| Kitties672.Pallet.Sale | homework-3/672/kitties/src/extrinsics.rs:93-111 | `sale` succeeds iff the caller owns the kitty, and then lists it until the given block |
| Kitties672.Pallet.Bid | homework-3/672/kitties/src/extrinsics.rs:115-135 | `bid` reserves the price and appends the bid, or fails with the currency error and changes nothing |
| Kitties672.Pallet.RefundBids | homework-3/672/kitties/src/impls.rs:54-62 | the refund loop unreserves every bid and finds the first highest bidder |
| Kitties672.Pallet.SettleOne | homework-3/672/kitties/src/impls.rs:51-75 | one listing's settlement equals `SettleListing` |
| Kitties672.Pallet.OnInitialize | homework-3/672/kitties/src/impls.rs:49-78 | `try_complete_sale` over all listings equals `Sweep`; a failure leaves storage unchanged |
| Kitties672.Pallet.Tick | homework-3/672/kitties/src/hooks.rs:12-16 | a new block runs the sweep at that block |
| Kitties672Tests.ListKitty | homework-3/672/kitties/src/tests.rs:71-104 | a kitty listed until block 10 |
| Kitties672Tests.SetUp | homework-3/672/kitties/src/tests.rs:71-104 | two bids, 100 and 130, held in reserve |
| Kitties672Tests.SaleScenario | homework-3/672/kitties/src/tests.rs:71-104 | at block 10 the 130 bidder owns the kitty, the listing is gone, and the seller is paid 130 |
| Kitties672Tests.SettleScenario | homework-3/672/kitties/src/tests.rs:71-104 | the same settlement, stated on the sweep function |
| Kitties610.FrontInsertKeepsLast | homework-3/610/pallets/kitties/src/extrinsics.rs:200-212 | inserting a bid at the front leaves the last (earliest) bid the same |
| Kitties610.Pallet.constructor | homework-3/610/pallets/kitties/src/extrinsics.rs:10-45 | genesis: empty storage |
| Kitties610.Pallet.Tick | homework-3/610/pallets/kitties/src/extrinsics.rs:114 | the block number advances by one |
| Kitties610.Pallet.InsertNextKitty | homework-3/610/pallets/kitties/src/extrinsics.rs:17-35 | the next id is minted, or `KittyIdOverflowError` at `u32::MAX` with nothing kept |
| Kitties610.Pallet.Create | homework-3/610/pallets/kitties/src/extrinsics.rs:10-45 | `create`: the next id is minted to the caller with an event, or the overflow error |
| Kitties610.Pallet.Breed | homework-3/610/pallets/kitties/src/extrinsics.rs:49-102 | `breed`: `SameKittyIdError` for one parent twice; panic for a missing parent; the overflow error; otherwise the child minted with a breed event |
| Kitties610.Pallet.Transfer | homework-3/610/pallets/kitties/src/extrinsics.rs:106-149 | `transfer` after the sale ended: each error in source order; panics for a missing listing or an empty bid list; on success the earliest bidder pays, takes the kitty, and the listing and bids are removed |
| Kitties610.Pallet.Handover | homework-3/610/pallets/kitties/src/extrinsics.rs:136-147 | the writes of a completed sale, keeping the invariant |
| Kitties610.Pallet.Sale | homework-3/610/pallets/kitties/src/extrinsics.rs:153-176 | `sale`: `KittyNotExistError`, `NotOwnerError`, or listed until the block with an event |
| Kitties610.Pallet.Bid | homework-3/610/pallets/kitties/src/extrinsics.rs:180-224 | `bid`: each error in source order; a price above the earliest bid goes at the front of the list; the first bid must be positive |
| Kitties610Tests.Listed | homework-3/610/pallets/kitties/src/extrinsics.rs:153-176 | a kitty listed until block 5 |
| Kitties610Tests.ThreeBids | homework-3/610/pallets/kitties/src/extrinsics.rs:180-224 | bids 10, 20 and 15 are all accepted, because only the earliest bid is compared; the list is newest first |
| Kitties610Tests.SaleToEarliestBidder | homework-3/610/pallets/kitties/src/extrinsics.rs:106-149 | after the sale the earliest bidder (10) owns the kitty and the seller is paid 10 |
| Kitties676.TryPush | homework-3/676/pallets/kitties/src/extrinsics.rs:200-203 | `try_push` on a bounded vector appends below the bound and does nothing at it |
| Kitties676.Pallet.constructor | homework-3/676/pallets/kitties/src/extrinsics.rs:17-44 | genesis: empty storage |
| Kitties676.Pallet.Tick | homework-3/676/pallets/kitties/src/extrinsics.rs:128 | the block number advances by one |
| Kitties676.Pallet.Create | homework-3/676/pallets/kitties/src/extrinsics.rs:17-44 | `create`: the next id is minted to the caller with an event, or `OverFlow` with nothing changed |
| Kitties676.Pallet.Breed | homework-3/676/pallets/kitties/src/extrinsics.rs:49-77 | `breed`: `OverFlow` first; a panic for a missing parent; otherwise the child is minted to the caller |
| Kitties676.Pallet.Transfer | homework-3/676/pallets/kitties/src/extrinsics.rs:82-106 | `transfer` succeeds iff the caller owns the kitty |
| Kitties676.Pallet.Sale | homework-3/676/pallets/kitties/src/extrinsics.rs:111-177 | `sale`: `NotOwner`, `BlockNumberTooSmall`, `SaleIsEnd` for an auction already over; otherwise the end block is set, and a first sale initialises the highest price and the bid list |
| Kitties676.Pallet.Bid | homework-3/676/pallets/kitties/src/extrinsics.rs:182-217 | `bid` succeeds iff the price beats the highest; it raises the highest price and pushes the bid only while the list has room |
| Kitties676Tests.FullBidListDropsEntry | homework-3/676/pallets/kitties/src/extrinsics.rs:182-217 | with room for one bid, a second higher bid is dropped from the list but becomes the highest price |
| Kitties676Tests.EndedAuctionCannotRestart | homework-3/676/pallets/kitties/src/extrinsics.rs:135-139 | re-listing after the end block gives `SaleIsEnd` |
| Kitties618.HoldingsAssign | homework-4/618/pallets/kitties/src/hooks.rs:14-60 | assigning a kitty changes each account's holdings count by the kitty it gained or lost |
| Kitties618.HoldingsRemove | homework-4/618/pallets/kitties/src/hooks.rs:14-60 | removing an owner entry lowers only its owner's count |
| Kitties618.HolderOwesStake | homework-4/618/pallets/kitties/src/hooks.rs:24 | under the escrow invariant, an owner or a standing bidder has at least one stake reserved, so unreserving it is exact |
| Kitties618.CreateKeepsEscrow | homework-4/618/pallets/kitties/src/impls.rs:36-61 | minting with a reserved stake keeps the escrow invariant |
| Kitties618.TransferKeepsEscrow | homework-4/618/pallets/kitties/src/tests.rs:145-171 | moving a kitty and its stake to the new owner keeps the escrow invariant; it relies on the assumed release of the old owner's stake |
| Kitties618.BiddersAssign | homework-4/618/pallets/kitties/src/tests.rs:279-324 | replacing a kitty's best bid replaces its bidder |
| Kitties618.BiddersRemove | homework-4/618/pallets/kitties/src/hooks.rs:14-60 | removing a kitty's bid removes its bidder |
| Kitties618.BidKeepsEscrow | homework-4/618/pallets/kitties/src/tests.rs:279-324 | staking the new bidder and releasing the outbid one keeps the escrow invariant |
| Kitties618.SettleKeepsEscrow | homework-4/618/pallets/kitties/src/hooks.rs:14-60 | settling a listing (the seller's stake released, the buyer pays, the bidder's stake now backs the kitty) keeps the escrow invariant |
| Kitties618.SettleListingEffect | homework-4/618/pallets/kitties/src/hooks.rs:14-60 | a due listing with a bid: the kitty goes to the bidder, listing and bid are removed, the seller gets the stake back plus the price, the buyer pays the price and keeps the stake reserved |
| Kitties618.SettleListingPanics | homework-4/618/pallets/kitties/src/hooks.rs:26-31 | a buyer who cannot pay makes the settlement fail |
| Kitties618.SweepFrame | homework-4/618/pallets/kitties/src/hooks.rs:14-60 | the sweep touches only due listings with a bid; kitties and the counter never change |
| Kitties618.SweepKeepsTotal | homework-4/618/pallets/kitties/src/hooks.rs:14-60 | the sweep does not change the total value held |
| Kitties618.SweepKeepsInvariant | homework-4/618/pallets/kitties/src/hooks.rs:14-60 | the sweep keeps the storage invariant and the escrow invariant |
| Kitties618.SweepWithoutDueListings | homework-4/618/pallets/kitties/src/hooks.rs:14-60 | with nothing due at `n` the sweep changes nothing |
| Kitties618.SweepPanicPersists | homework-4/618/pallets/kitties/src/hooks.rs:14-60 | once a settlement fails, the whole block's sweep fails |
| Kitties618.Pushed | homework-4/618/pallets/kitties/src/impls.rs:185-202 | `add_price` appends while there is room and the buffer never exceeds `MaxPrices`; the price is always in it |
| Kitties618.PushedIntoFull | homework-4/618/pallets/kitties/src/impls.rs:190-195 | in a full buffer the price overwrites slot `price % MaxPrices` and nothing else |
| Kitties618.SaturatingAdd | homework-4/618/pallets/kitties/src/impls.rs:205-212 | `saturating_add` gives either the true sum or `u32::MAX`, is at least each operand and at most the true sum, so it is the sum whenever that fits |
| Kitties618.AveragePrice | homework-4/618/pallets/kitties/src/impls.rs:205-212 | `average_price` is `None` exactly for an empty buffer |
| Kitties618.SaturatingSumIsCappedSum | homework-4/618/pallets/kitties/src/impls.rs:205-212 | the saturating fold is the true sum capped at `u32::MAX` |
| Kitties618.SumOfBound | homework-4/618/pallets/kitties/src/impls.rs:205-212 | prices each at most `m` sum to at most `len * m` |
| Kitties618.AverageBounds | homework-4/618/pallets/kitties/src/impls.rs:205-212 | the average never exceeds the largest price, and is the true mean when the sum fits |
| Kitties618.SaturatedAverageBelowEveryPrice | homework-4/618/pallets/kitties/src/impls.rs:205-212 | when the sum saturates, the average can be below every price in the buffer |
| Kitties618.Migrated | homework-4/618/pallets/kitties/src/migration.rs:23-42 | the intended migration: every v0 kitty becomes a v1 kitty under its own id, with its dna and price 0, and v1 kitties already stored stay (see Left out for the drain as written) |
| Kitties618.MigratedStep | homework-4/618/pallets/kitties/src/migration.rs:29-35 | in the intended migration, draining one more v0 entry adds exactly that kitty under its id |
| Kitties618.MigratedCount | homework-4/618/pallets/kitties/src/migration.rs:23-42 | the intended migrated map counts the v1 kitties plus the new v0 ids; it keeps the count iff every v0 id was already a v1 kitty |
| Kitties618.Pallet.constructor | homework-4/618/pallets/kitties/src/mock.rs:123-142 | genesis: endowed free balances, empty kitty storage, storage version 1 |
| Kitties618.Pallet.FromV0 | homework-4/618/pallets/kitties/src/migration.rs:9-19 | a chain at storage version 0 holding v0 kitties |
| Kitties618.Pallet.CreateWithStake | homework-4/618/pallets/kitties/src/impls.rs:36-61 | `create_with_stake`: `NotEnoughForStaking` or `KittyIdOverflow` with nothing changed; otherwise the stake is reserved and the kitty minted with its price |
| Kitties618.Pallet.Breed | homework-4/618/pallets/kitties/src/tests.rs:63-141 | `breed`: `InvalidKittyId`, `NotOwner`, or a child minted with a stake, as `create_with_stake` |
| Kitties618.Pallet.Transfer | homework-4/618/pallets/kitties/src/tests.rs:145-223 | `transfer`: `InvalidKittyId`, `NotOwner`, `TransferToSelf`, `NotEnoughForStaking`; on success the new owner's stake is reserved, as the tests check, and the old owner's is released, which is assumed |
| Kitties618.Pallet.Sale | homework-4/618/pallets/kitties/src/tests.rs:227-275 | `sale`: `InvalidKittyId`, `NotOwner`, `KittyAlreadyOnSale`, or listed with end block and floor |
| Kitties618.Pallet.Bid | homework-4/618/pallets/kitties/src/tests.rs:279-405 | `bid`: each error; on success the bidder's stake is reserved, an outbid bidder's stake released, and the bid replaced |
| Kitties618.Pallet.SettleOne | homework-4/618/pallets/kitties/src/hooks.rs:17-56 | one listing's settlement equals `SettleListing`; a failure changes nothing |
| Kitties618.Pallet.OnInitialize | homework-4/618/pallets/kitties/src/hooks.rs:14-60 | `on_initialize` equals `Sweep` and keeps both invariants |
| Kitties618.Pallet.SweepAll | homework-4/618/pallets/kitties/src/hooks.rs:16-58 | the loop over all listings equals `Sweep` |
| Kitties618.Pallet.Tick | homework-4/618/pallets/kitties/src/mock.rs:144-154 | `run_to_block` one step: the next block's sweep |
| Kitties618.Pallet.AddPrice | homework-4/618/pallets/kitties/src/impls.rs:185-202 | `add_price` pushes into the buffer and emits `NewPrice`; afterwards the average exists |
| Kitties618.Pallet.MigrateToV1 | homework-4/618/pallets/kitties/src/migration.rs:23-42 | at version 0 every v0 kitty is migrated as in the intended migration, the old map is drained, and the version becomes 1; otherwise nothing changes |
| Kitties618.Pallet.DrainV0 | homework-4/618/pallets/kitties/src/migration.rs:29-35 | the drain loop produces the intended `Migrated` and empties the v0 map, whatever the key order |
| Kitties618.Pallet.PreUpgrade | homework-4/618/pallets/kitties/src/hooks.rs:101-105 | `pre_upgrade` reports the v1 kitty count as `u32` |
| Kitties618.Pallet.PostUpgrade | homework-4/618/pallets/kitties/src/hooks.rs:108-113 | `post_upgrade` succeeds iff the count is unchanged, and panics otherwise |
| Kitties618.Pallet.IntegrityTest | homework-4/618/pallets/kitties/src/hooks.rs:77-79 | `integrity_test` passes iff `NextKittyId` is 0 |
| Kitties618Tests.NewTestExt | homework-4/618/pallets/kitties/src/mock.rs:123-142 | the test externalities: four endowed accounts, stake 200, 64 prices, block 1 |
| Kitties618Tests.CreateKitty | homework-4/618/pallets/kitties/src/tests.rs:15-38 | account 0 owns kitty 0 and has 200 reserved |
| Kitties618Tests.CreateOverflow | homework-4/618/pallets/kitties/src/tests.rs:41-49 | at `u32::MAX` creation fails with `KittyIdOverflow` and storage is unchanged |
| Kitties618Tests.CreateUnfunded | homework-4/618/pallets/kitties/src/tests.rs:52-59 | an account without funds gets `NotEnoughForStaking` |
| Kitties618Tests.BreedOwnKitties | homework-4/618/pallets/kitties/src/tests.rs:63-92 | breeding two own kitties mints kitty 2 to the breeder with 600 reserved |
| Kitties618Tests.BreedNotOwner | homework-4/618/pallets/kitties/src/tests.rs:97-110 | breeding someone else's kitty gives `NotOwner` |
| Kitties618Tests.TransferMovesStake | homework-4/618/pallets/kitties/src/tests.rs:145-171 | the new owner carries the stake, as the test checks; the release of the old owner's stake is the assumed half of `transfer` (see Left out) |
| Kitties618Tests.TransferFailures | homework-4/618/pallets/kitties/src/tests.rs:175-223 | the four transfer errors |
| Kitties618Tests.Listed | homework-4/618/pallets/kitties/src/tests.rs:227-242 | the kitty is listed with end block 10 and floor 20 |
| Kitties618Tests.SaleTwice | homework-4/618/pallets/kitties/src/tests.rs:266-275 | listing again gives `KittyAlreadyOnSale` and keeps the listing |
| Kitties618Tests.FirstBid | homework-4/618/pallets/kitties/src/tests.rs:279-324 | the first bid of 30 stakes 200 of the bidder |
| Kitties618Tests.LowBids | homework-4/618/pallets/kitties/src/tests.rs:362-389 | bids not above the floor or the standing bid give `PriceNotHigh` |
| Kitties618Tests.RejectedBids | homework-4/618/pallets/kitties/src/tests.rs:327-359 | a missing kitty, an unlisted kitty and the owner's own bid are refused; the replay first creates kitty 0, which `it_bid_when_bidder_is_owner` lists without creating, and bids on the absent kitty 1 for `InvalidKittyId` |
| Kitties618Tests.BlockFour | homework-4/618/pallets/kitties/src/tests.rs:279-324 | advancing a block before the end changes nothing |
| Kitties618Tests.Outbid | homework-4/618/pallets/kitties/src/tests.rs:279-324 | an outbid bidder gets the stake back and the new bidder's is reserved |
| Kitties618Tests.OutbidBalances | homework-4/618/pallets/kitties/src/tests.rs:279-324 | the ledger arithmetic of the outbid step |
| Kitties618Tests.TradeWorks | homework-4/618/pallets/kitties/src/tests.rs:408-445 | at the end block the bidder owns the kitty; the seller is paid 100 and freed of the stake; the buyer keeps 200 reserved; tom is account 2, not the seller's account 0 as written |
| Kitties618Tests.SettleTrade | homework-4/618/pallets/kitties/src/tests.rs:408-445 | the same trade, stated on the sweep function, with tom as account 2 |
| Kitties618Tests.StakedBidderCannotSpendAll | homework-4/618/pallets/kitties/src/hooks.rs:26-31 | a bidder that bids its whole free balance makes the settlement trap, whatever it has reserved |
| Kitties618Tests.TwoPrices | homework-4/618/pallets/kitties/src/impls.rs:185-202 | two prices fill a buffer of two |
| Kitties618Tests.PriceBuffer | homework-4/618/pallets/kitties/src/impls.rs:185-212 | the averages 15 and 20, and price 31 overwriting slot 1 of a full buffer |
| Kitties618Tests.PairAverage | homework-4/618/pallets/kitties/src/impls.rs:205-212 | two prices whose sum fits average to their mean |
| Kitties618Tests.GenesisIntegrity | homework-4/618/pallets/kitties/src/hooks.rs:77-79 | the integrity test passes at genesis |
| Kitties618Tests.Upgraded | homework-4/618/pallets/kitties/src/migration.rs:23-42 | in the intended migration two v0 kitties become v1 kitties under ids 0 and 1 with price 0, at version 1; `pre_upgrade` counted 0 |
| Kitties618Tests.UpgradeFromV0 | homework-4/618/pallets/kitties/src/hooks.rs:101-113 | a second migration changes nothing; `post_upgrade` after migrating v0 kitties panics |
| Kitties618Tests.MigrateTwo | homework-4/618/pallets/kitties/src/migration.rs:23-42 | the intended migrated map of the two-kitty scenario |
| Poe.OwnerCheck | homework-1/629/pallets/poe/src/lib.rs:69-70 | `ClaimNotExist` iff the claim is absent; `Ok` iff the caller owns it; otherwise `NotClaimOwner` |
| Poe.Apply | homework-1/629/pallets/poe/src/lib.rs:49-106 | each call's outcome; a failed call writes nothing; creation records (caller, block), revocation removes, transfer re-records (dest, block); no other claim ever changes |
| Poe.OutcomeIsLocal | homework-1/629/pallets/poe/src/lib.rs:49-106 | a call's outcome and its effect on its claim depend only on that claim's entry |
| Poe.DistinctClaimsCommute | homework-1/629/pallets/poe/src/lib.rs:49-106 | calls on different claims commute, with the same outcomes |
| Poe.CreateThenRevoke | homework-1/629/pallets/poe/src/lib.rs:49-77 | creating then revoking a fresh claim restores the registry |
| Poe.TransferHandsOver | homework-1/629/pallets/poe/src/lib.rs:81-106 | after a transfer the new owner passes the owner checks and the old owner fails them |
| Poe.Pallet.constructor | homework-1/629/pallets/poe/src/lib.rs:31-37 | genesis: no claims |
| Poe.Pallet.Tick | homework-1/629/pallets/poe/src/lib.rs:56 | the block number advances by one |
| Poe.Pallet.CreateClaim | homework-1/629/pallets/poe/src/lib.rs:49-62 | `create_claim` equals `Apply`, emits `ClaimCreated` on success, and keeps the claims within `MaxClaimLength` |
| Poe.Pallet.RevokeClaim | homework-1/629/pallets/poe/src/lib.rs:66-77 | `revoke_claim` equals `Apply` and emits `ClaimRevoked` on success |
| Poe.Pallet.TransferClaim | homework-1/629/pallets/poe/src/lib.rs:81-95 | `transfer_claim` equals `Apply`; it emits no event |
| Poe.Pallet.CheckProof | homework-1/629/pallets/poe/src/lib.rs:100-106 | `proofs` succeeds iff the claim exists and is the caller's; it writes nothing |
| Token.AllowanceOf | homework-6/658/erc20/lib.rs:117-119 | the stored allowance, 0 for an absent pair |
| Token.BalanceBelowSum | homework-6/658/erc20/lib.rs:75-77 | no balance exceeds the sum of all balances |
| Token.EveryBalanceBelowSum | homework-6/658/erc20/lib.rs:75-77 | the same for every account at once |
| Token.DebitThenCredit | homework-6/658/erc20/lib.rs:202-211 | debit, then a checked credit of what `to` then holds: a result iff that credit fits `u128` |
| Token.DebitThenCreditMoves | homework-6/658/erc20/lib.rs:202-211 | while the balances sum within `u128` the credit cannot overflow and the move is an exact transfer: the sum is kept, `from` loses, `to` gains, a self-transfer changes nothing, others are untouched |
| Token.SnapshotMove | homework-6/640/lib.rs:119-142 | read both balances, then write both: a result iff `to + value` fits `u128` |
| Token.SnapshotMoveEffect | homework-6/640/lib.rs:119-142 | between two accounts an exact transfer; to oneself the balance and the sum grow by `value` |
| Erc20Std.Erc20.constructor | homework-6/658/erc20/lib.rs:57-71 | `new`: the caller holds the supply; a mint event; the balances sum to it |
| Erc20Std.Erc20.TotalSupply | homework-6/658/erc20/lib.rs:75-77 | `total_supply` bounds every balance |
| Erc20Std.Erc20.TransferFromTo | homework-6/658/erc20/lib.rs:196-218 | `InsufficientBalance` before any write, else the debit-then-credit move and a `Transfer` event; the sum is kept and the `unwrap` never panics |
| Erc20Std.Erc20.Transfer | homework-6/658/erc20/lib.rs:130-133 | `transfer` from the caller, as `TransferFromTo` |
| Erc20Std.Erc20.Approve | homework-6/658/erc20/lib.rs:143-152 | `approve` overwrites `(caller, spender)` and emits `Approval` |
| Erc20Std.Erc20.TransferFrom | homework-6/658/erc20/lib.rs:169-186 | `InsufficientAllowance`; any transfer error leaves the allowance; only a successful transfer spends it |
| Erc20v22.Erc20.constructor | homework-6/22/lib.rs:43-58 | `new`: the caller holds the supply; a mint event |
| Erc20v22.Erc20.TransferFromTo | homework-6/22/lib.rs:89-102 | `false` when the balance is short; otherwise the snapshot move; an unchecked overflow traps |
| Erc20v22.Erc20.Transfer | homework-6/22/lib.rs:75-87 | the `Transfer` event is emitted before the move and kept when it answers `false` |
| Erc20v22.Erc20.Approve | homework-6/22/lib.rs:105-117 | `approve` overwrites `(caller, spender)`, emits `Approval`, answers `true` |
| Erc20v22.Erc20.TransferFrom | homework-6/22/lib.rs:125-140 | a short allowance answers `false`; otherwise the allowance is spent and the event emitted before the move, and kept when it fails |
| Erc20v640.Erc20.constructor | homework-6/640/lib.rs:49-64 | `new`: the caller holds the supply; a mint event |
| Erc20v640.Erc20.TransferHelper | homework-6/640/lib.rs:119-142 | `BalanceTooLow` with no write; the snapshot move; a trap on overflow |
| Erc20v640.Erc20.Transfer | homework-6/640/lib.rs:80-83 | `transfer` from the caller, as `TransferHelper` |
| Erc20v640.Erc20.TransferFrom | homework-6/640/lib.rs:86-103 | `AllowanceTooLow`; otherwise the allowance is spent first, and a `BalanceTooLow` from the helper keeps it spent |
| Erc20v640.Erc20.Approve | homework-6/640/lib.rs:106-117 | `approve` overwrites `(caller, to)` and emits `Approval` |
| Erc20v629.Erc20.constructor | homework-6/629/lib.rs:51-59 | `new`: the caller holds the supply; no event |
| Erc20v629.Erc20.AllowancesOf | homework-6/629/lib.rs:82-84 | the stored allowance, 0 when none |
| Erc20v629.Erc20.TransferFromTo | homework-6/629/lib.rs:100-111 | `BalanceTooLow` before any write; the debit is kept when the credit overflows; under the supply invariant `Overflow` cannot happen |
| Erc20v629.Erc20.Transfer | homework-6/629/lib.rs:76-80 | `transfer` from the caller, as `TransferFromTo` |
| Erc20v629.Erc20.TransferFrom | homework-6/629/lib.rs:87-97 | the allowance is read and spent under `(caller, from)`, and only after a successful transfer |
| Erc20v629.Erc20.Approve | homework-6/629/lib.rs:114-120 | `approve` overwrites `(caller, spender)` and emits `Approval` |
| Erc20v597.Erc20.constructor | homework-6/597/erc20/lib.rs:43-51 | `new`: the caller holds the supply; no event |
| Erc20v597.Erc20.TransferHelper | homework-6/597/erc20/lib.rs:99-126 | never panics; `BalanceTooLow` for a short balance or an overflowing credit, with nothing written; otherwise the snapshot move and an event |
| Erc20v597.Erc20.Transfer | homework-6/597/erc20/lib.rs:64-68 | `transfer` from the caller, as `TransferHelper` |
| Erc20v597.Erc20.TransferFrom | homework-6/597/erc20/lib.rs:70-85 | `AllowanceTooLow`; otherwise the allowance is spent before the helper, whatever the helper answers |
| Erc20v597.Erc20.Approve | homework-6/597/erc20/lib.rs:88-97 | `approve` overwrites `(caller, to)` and emits `Approve` |
| Erc20Tests.StdNew | homework-6/658/erc20/lib.rs:278-330 | `new_works`, `balance_of_works`: one mint event; alice 100, bob 0 |
| Erc20Tests.StdTransfer | homework-6/658/erc20/lib.rs:333-362 | `transfer_works`: bob 10, the two events |
| Erc20Tests.StdInvalidTransfer | homework-6/658/erc20/lib.rs:365-397 | `invalid_transfer_should_fail`: `InsufficientBalance`, balances unchanged, one event |
| Erc20Tests.StdTransferFrom | homework-6/658/erc20/lib.rs:400-447 | `transfer_from_works`: refused first, then eve 10 after the approval, three events |
| Erc20Tests.StdFailedTransferFrom | homework-6/658/erc20/lib.rs:450-481 | `allowance_must_not_change_on_failed_transfer`: the allowance stays 102, no event added |
| Erc20Tests.StdAllowanceExhausted | homework-6/658/erc20/lib.rs:564-638 | `e2e_allowances` with a supply of 1_000_000_000: an unapproved `transfer_from` fails, the approved 1_000 moves, the owner keeps 999_999_000, and one more unit is refused |
| Erc20Tests.StdSelfTransfer | homework-6/658/erc20/lib.rs:196-218 | a transfer to oneself leaves the balance |
| Erc20Tests.V22Transfer | homework-6/22/lib.rs:170-176 | `transfer_works`: 10 arrive; 100 more answers `false` |
| Erc20Tests.V22TransferFrom | homework-6/22/lib.rs:179-185 | `transfer_from_works` with a self-approval |
| Erc20Tests.V22FailedTransferEmits | homework-6/22/lib.rs:75-87 | a failed transfer still logs its event |
| Erc20Tests.V22SelfTransfer | homework-6/22/lib.rs:89-102 | a transfer to oneself doubles the balance |
| Erc20Tests.V22FailedTransferFromSpends | homework-6/22/lib.rs:125-140 | a failed `transfer_from` still spends the allowance |
| Erc20Tests.V640Transfer | homework-6/640/lib.rs:177-194 | `transfer_should_work`, `transfer_should_fault` |
| Erc20Tests.V640SelfTransfer | homework-6/640/lib.rs:119-142 | a transfer to oneself exceeds the total supply |
| Erc20Tests.V640FailedTransferFromSpends | homework-6/640/lib.rs:86-103 | a `BalanceTooLow` `transfer_from` still spends the allowance |
| Erc20Tests.V629Transfer | homework-6/629/lib.rs:155-183 | `transfer_works`: bob 500, exactly one event |
| Erc20Tests.V629TooMuch | homework-6/629/lib.rs:187-203 | `transfer_overflow`: `BalanceTooLow`, balances unchanged |
| Erc20Tests.V629Approve | homework-6/629/lib.rs:210-243 | `approve_works`, `approve_failed` |
| Erc20Tests.V629ApproverDrawsOnSpender | homework-6/629/lib.rs:87-97 | the spender cannot use an approval, while the approver draws on the spender |
| Erc20Tests.V597Transfer | homework-6/597/erc20/lib.rs:145-155 | `transfer_works_and_emits_event`: 60 and 40 |
| Erc20Tests.V597SelfTransfer | homework-6/597/erc20/lib.rs:99-126 | a transfer to oneself doubles the balance |
| Erc20Tests.V597FailedTransferFromSpends | homework-6/597/erc20/lib.rs:70-85 | a failed `transfer_from` still spends the allowance |

## Left out

- Kitties618.SettleListing, Kitties618.Pallet.OnInitialize and Kitties618.Pallet.SweepAll do not model the trap that follows each settlement as written. After the storage writes, hooks.rs:41 calls `fetch_price`. Its first statement (impls.rs:120) calls `sp_io::offchain::timestamp()`, and that host call panics outside an off-chain worker. Block execution and the mock's `new_test_ext` are both outside one. So as written every settlement traps and `on_initialize` cannot complete. The model instead takes `fetch_price`'s `Err` branch, which only logs: this is the settlement the pallet's tests expect. The `KittyBidedAchieve` event of the `Ok` branch is left out.
- Off-chain workers are not modelled: `offchain_worker`, `fetch_price`, `parse_price`, `fetch_price_and_send_signed`, `choose_transaction_type` and signed or unsigned transactions. They are HTTP, local storage and signing. `add_price`, which they call, is modelled.
- `random_value` is left out, because it hashes the randomness source; its output is an input.
- Weights, benchmarks, `WeightInfo` and the mock runtime are out of scope. Events are a log, not the `System` event store.
- homework-4/618/pallets/kitties/src/extrinsics.rs is not part of this model. The 618 `breed`, `transfer`, `sale` and `bid` are modelled from the pallet's unit tests and its `create_with_stake` and `on_initialize`. That `transfer` re-stakes the kitty for the new owner is inferred from the tests' balances. That it also unreserves the old owner's stake is an assumption: tests.rs:145-171 checks only the new owner's balances. The escrow invariant (`Escrowed`, kept by `TransferKeepsEscrow`) depends on that assumption.
- The body of `breed_kitty` for 610 and 676 is not part of this model. 676's child dna is an input, and 610's uses the same parameter.
- Kitties672: the `Prices` storage item is left out, because no dispatchable in the core writes it.
- Ledger: only the checks the pallets meet are modelled. A reserve needs the free balance to cover it. A `KeepAlive` transfer follows the fungible transfer of current `pallet_balances`, as the mocks configure it through `derive_impl`: the sender is checked first, on its free balance alone, and then the recipient. Balance overflow, locks, freezes, dust removal and provider and consumer reference counts are left out.
- Ledger.Transfer: each failure carries the name of the `TokenError` of the first check that fails; the error mapping of `pallet_balances` beyond these three checks is not modelled.
- Kitties618Tests: two of the pallet's tests cannot pass as written, and the model's replays correct them. `it_bid_when_bidder_is_owner` (tests.rs:336-345) lists kitty 0 without creating it; the replay `RejectedBids` creates it first. `it_trade_work` (tests.rs:408-445) sets tom to the same account as alice, so tom's bid would be refused with `BidderIsOwner`; the replays `TradeWorks` and `SettleTrade` take tom as account 2.
- Storage-map iteration order is an input (`order`). The model does not prove that the host's hash order is any particular permutation.
- Kitties618: v0 and v1 kitties sit in separate maps (`v0Kitties`, `kitties`). In the source they share one storage prefix. The model gives the intended migration, which drains the old entries and re-inserts each one as a v1 kitty under its own id.
- Kitties618.Migrated, Kitties618.MigratedStep, Kitties618.MigratedCount, Kitties618.Pallet.MigrateToV1, Kitties618.Pallet.DrainV0, Kitties618Tests.Upgraded, Kitties618Tests.MigrateTwo: they state the intended, id-preserving migration, not the drain as written. `v0::Kitties` (Identity hasher, migration.rs:17) and `Kitties` (Blake2_128Concat, lib.rs:123) share one storage prefix, so `drain()` (migration.rs:29) also visits the entries the loop itself inserts (migration.rs:34) and every v1 kitty already stored. Each visited entry is removed and re-inserted under an id read from the first four bytes of its hashed key, with price 0. As written, ids therefore become hash-derived and existing v1 prices reset to 0; adding to a map while draining it has no defined result in FRAME. `Kitties618Tests.UpgradeFromV0` is unaffected: `pre_upgrade` counts 0, because v0 keys do not decode as v1 keys, and `post_upgrade` panics.
- The ink! contracts are modelled under the off-chain test environment: `Err` results keep earlier writes. On chain, ink! 4 and later also revert storage when a message returns `Err`. Traps revert in both.
- The getters `total_supply`, `balance_of` and `allowance` are the `Token` functions and `Erc20Std.Erc20.TotalSupply`. homework-6/677 and homework-6/693 share `Erc20Std`, whose cited lines are those of homework-6/658.
- Event topics and SCALE encoding are left out.
- Poe.Pallet.CreateClaim, RevokeClaim, TransferClaim and CheckProof take `|claim| <= maxClaimLength` as a precondition, because a `BoundedVec` argument cannot be longer. Decoding rejects a longer claim before the call runs.
- Account ids are natural numbers. The test accounts alice, bob and eve are 1, 2 and 5.

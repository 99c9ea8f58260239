# InkDAO subgraph: the event-to-entity aggregation core, in Dafny

The subgraph indexes three contracts: the dXmaster registry, the marketPlace
and each dXasset token. Every decoded event goes to a handler. The handler
reads, updates and saves rows in an entity store that holds five kinds:

- **Asset**, keyed by asset address or token id;
- **Creator**, keyed by address;
- **Holder**, keyed by address;
- **Purchase**, a position keyed by (holder, asset);
- **GlobalStats**, a singleton keyed `BYTES_ZERO`.

The model has these parts:

- `entities.dfy` (module `Entities`): the rows, their zero-valued defaults and the decoded events.
- `store.dfy` (module `EntityStore`): the `Store` class, with one `map` field per kind. `save` is a map update, so a later load sees an earlier save. `Store.Valid()` says that every row is stored under its own id.
- `entity_utils.dfy` (module `EntityUtils`): the load-or-create resolvers.
- `stats.dfy` (module `StatsUpdates`): `updateGlobalStats` and `updateUserStats`. The source has identical copies of these in `dXmaster.ts` and `marketPlace.ts`. Both copies are modelled once here.
- `dxmaster.dfy` (module `DXMaster`): AssetAdded and AssetBought.
- `marketplace.dfy` (module `MarketPlace`): PostCreated and PostSubscribed.
- `dxasset.dfy` (module `DXAsset`): Transfer.
- `scenarios.dfy` (module `Scenarios`): the event sequences of the unit tests. They are stated over arbitrary addresses, and where a test starts from a populated store, over any store that holds the positions it sets up.

Every handler is an imperative module-level method that takes the `Store` and declares `modifies` on it. Its statements follow the source's read-modify-save order. Each method is proved equal to a pure function of the store before the call, for example `st.Snapshot() == AfterAssetBought(old(st.Snapshot()), e, fee)`. The source's promises are then stated about these functions:

- what each handler writes, and that nothing else changes;
- the counter invariant `Counted`: creators = Creator rows, holders = Holder rows, users = addresses holding either role;
- the revenue bound `RevenueWithinFee`: revenue ≤ volume × fee / 100, with truncation applied to each event;
- conservation of each asset's supply under transfers.

## Model

| member | source | states |
|---|---|---|
| EntityStore.Store.SaveAsset | src/dXmaster.ts:33 | `asset.save()` stores the row under its id and changes no other map |
| EntityStore.Store.SaveCreator | src/dXmaster.ts:30 | `creator.save()` stores the row under its id and changes no other map |
| EntityStore.Store.SaveHolder | src/dXmaster.ts:48 | `holder.save()` stores the row under its id and changes no other map |
| EntityStore.Store.SavePurchase | src/dXmaster.ts:57 | `purchase.save()` stores the row under its id and changes no other map |
| EntityStore.Store.SaveGlobalStats | src/dXmaster.ts:77 | `stats.save()` stores the row under its id and changes no other map |
| EntityStore.Store.constructor | tests/dxmaster.test.ts:16 | the store starts empty and well keyed, as after `clearStore()` before each test |
| EntityStore.StatsOf | src/dXmaster.ts:69 | definition: the GlobalStats singleton under `BYTES_ZERO`, read as all zeros before the first event creates it |
| EntityStore.WellKeyed | src/dXmaster.ts:30-33 | definition: every row is stored under its own id, as `save` puts it |
| Entities.NewAsset | src/utils/entityUtils.ts:8-14 | definition: the Asset a miss creates, with creator `BYTES_ZERO`, empty CIDs and title, and price and time 0 (the subscriber count is taken as 0) |
| Entities.NewCreator | src/utils/entityUtils.ts:23-25 | definition: the Creator a miss creates, with assets and earnings 0 (worth and subscribers taken as 0) |
| Entities.NewHolder | src/utils/entityUtils.ts:34-36 | definition: the Holder a miss creates, with purchases and spending 0 and no asset |
| Entities.NewPurchase | src/utils/entityUtils.ts:45-50 | definition: the position a miss creates, with holder and asset `BYTES_ZERO` and balance, payment and time 0 |
| Entities.NewGlobalStats | src/utils/entityUtils.ts:59-67 | definition: the statistics row a miss creates, with all eight counters 0 |
| EntityUtils.Upsert | src/utils/entityUtils.ts:5-18 | load-or-create on one map: afterwards the key is present; on a hit its value is the stored one, on a miss the default; no other key is added and no other entry changes |
| EntityUtils.AssetRow | src/utils/entityUtils.ts:5-18 | definition: the row `loadOrCreateAsset` returns, the stored one or `NewAsset` |
| EntityUtils.CreatorRow | src/utils/entityUtils.ts:20-29 | definition: the row `loadOrCreateCreator` returns, the stored one or `NewCreator` |
| EntityUtils.HolderRow | src/utils/entityUtils.ts:31-40 | definition: the row `loadOrCreateHolder` returns, the stored one or `NewHolder` |
| EntityUtils.PurchaseRow | src/utils/entityUtils.ts:42-54 | definition: the row `loadOrCreatePurchase` returns, stated on the positions map |
| EntityUtils.WithAsset | src/utils/entityUtils.ts:5-18 | definition: the store after `loadOrCreateAsset`, where only the Asset map is upserted at `id` |
| EntityUtils.WithCreator | src/utils/entityUtils.ts:20-29 | definition: the store after `loadOrCreateCreator`, where only the Creator map is upserted at `id` |
| EntityUtils.WithHolder | src/utils/entityUtils.ts:31-40 | definition: the store after `loadOrCreateHolder`, where only the Holder map is upserted at `id` |
| EntityUtils.WithPurchase | src/utils/entityUtils.ts:42-54 | definition: the store after `loadOrCreatePurchase`, where only the positions map is upserted at `id` |
| EntityUtils.WithGlobalStats | src/utils/entityUtils.ts:56-71 | definition: the store after `loadOrCreateGlobalStats`, where only the statistics map is upserted at `id` |
| EntityUtils.UpsertThenStore | src/utils/entityUtils.ts:15-17 | saving over a resolved key makes whether the resolver created it irrelevant |
| EntityUtils.UpsertIdempotent | src/utils/entityUtils.ts:5-71 | resolving twice is resolving once |
| EntityUtils.ResolveHitIsNoOp | src/utils/entityUtils.ts:6-17 | on a hit, every resolver leaves the whole store unchanged |
| EntityUtils.ResolveIdempotent | src/utils/entityUtils.ts:5-71 | each of the five resolvers, called twice in a row, has the effect of one call |
| EntityUtils.LoadOrCreateAsset | src/utils/entityUtils.ts:5-18 | returns the stored Asset, or stores and returns one with creator `BYTES_ZERO`, empty CIDs and title, and price and time 0; only the Asset map changes, and only at `id` |
| EntityUtils.LoadOrCreateCreator | src/utils/entityUtils.ts:20-29 | returns the stored Creator, or stores and returns a zero one; only the Creator map changes, and only at `id` |
| EntityUtils.LoadOrCreateHolder | src/utils/entityUtils.ts:31-40 | returns the stored Holder, or stores and returns a zero one; only the Holder map changes, and only at `id` |
| EntityUtils.LoadOrCreatePurchase | src/utils/entityUtils.ts:42-54 | returns the stored position, or stores and returns one with balance, payment and time 0 and holder and asset `BYTES_ZERO` |
| EntityUtils.LoadOrCreateGlobalStats | src/utils/entityUtils.ts:56-71 | returns the stored statistics, or stores and returns eight zero counters |
| StatsUpdates.Revenue | src/dXmaster.ts:59 | definition: a sale's platform revenue `cost × fee / 100`, truncated per event (also src/marketPlace.ts:56) |
| StatsUpdates.IsNewUser | src/dXmaster.ts:88 | definition: the address has neither a Creator row nor a Holder row |
| StatsUpdates.Bump | src/dXmaster.ts:88-100 | definition: a conditional increment of one |
| StatsUpdates.Counted | src/dXmaster.ts:84-100 | invariant: creators = Creator rows, holders = Holder rows, users = addresses in either role |
| StatsUpdates.RevenueWithinFee | src/dXmaster.ts:59 | invariant: total revenue ≤ total volume × fee / 100 |
| StatsUpdates.AfterGlobalStats | src/dXmaster.ts:62-78 | the five rolling totals grow by exactly their increments; the user counters and all rows of other kinds are unchanged; the only statistics row written is the one under `BYTES_ZERO`, which keeps its id, and no other key is added |
| StatsUpdates.UpdateGlobalStats | src/dXmaster.ts:62-78 | the method's new store is `AfterGlobalStats` of the old one |
| StatsUpdates.AfterUserStats | src/dXmaster.ts:80-103 | users grows by 1 exactly when the address had neither a Creator row nor a Holder row; the requested role gets its row, and its counter grows by 1 exactly on that role's first occurrence; the other role's rows and counter are untouched, as are the rolling totals; the only statistics row written is the one under `BYTES_ZERO`, which keeps its id |
| StatsUpdates.UpdateUserStats | src/dXmaster.ts:80-103 | the method's new store is `AfterUserStats` of the old one |
| StatsUpdates.UserStatsSteps | src/dXmaster.ts:84-102 | the resolve, conditional-increment and save steps, composed, match the closed form |
| StatsUpdates.AddToRole | src/dXmaster.ts:88-95 | adding an address to one role's set grows that set by one exactly when the address was new to it, and the union of both roles by one exactly when the address was new to both |
| StatsUpdates.RoleSetsGrow | src/dXmaster.ts:88-100 | the cardinality facts for either role |
| StatsUpdates.UserStatsKeepCounted | src/dXmaster.ts:84-103 | `updateUserStats` preserves `Counted` |
| StatsUpdates.RevenueSubadditive | src/dXmaster.ts:59 | truncating each sale's fee share never yields more than truncating the sum |
| StatsUpdates.GlobalStatsKeepRevenueWithinFee | src/dXmaster.ts:59-78 | adding a sale's cost and its truncated fee share keeps revenue ≤ volume × fee / 100 |
| DXMaster.AfterAssetAdded | src/dXmaster.ts:10-36 | the asset row is the loaded row with the event's title, CIDs, price, time and author, even if it already existed; the author's Creator row lists one more asset; stats gain one asset and the price as worth, and the author is counted as user and creator on first sight; no other row changes, and the only statistics row written is the one under `BYTES_ZERO` |
| DXMaster.ListAsset | src/dXmaster.ts:17-33 | the handler's own writes add only the asset id and the author's Creator row |
| DXMaster.ListAssetSteps | src/dXmaster.ts:17-33 | the resolve, modify and save sequence matches the closed form |
| DXMaster.HandleAssetAdded | src/dXmaster.ts:10-36 | the handler's new store is `AfterAssetAdded` of the old one |
| DXMaster.Cost | src/dXmaster.ts:53 | definition: `amount.times(priceInWei)` |
| DXMaster.PurchaseCost | src/dXmaster.ts:42-53 | definition: the amount times the price on the resolved asset, which is 0 for an unknown asset |
| DXMaster.AfterAssetBought | src/dXmaster.ts:38-60 | the position (buyer, asset) is the loaded row overwritten with balance := amount, paid := amount × price, time, holder and asset refs; the buyer's Holder row gains one purchase and the cost; stats gain one purchase, the cost as volume and the truncated fee share as revenue, and the buyer is counted as user and holder on first sight; no Creator row changes, and the only statistics row written is the one under `BYTES_ZERO` |
| DXMaster.RecordPurchase | src/dXmaster.ts:41-57 | the handler's own writes add only the buyer's Holder row and the position |
| DXMaster.RecordPurchaseSteps | src/dXmaster.ts:41-57 | the resolve, modify and save sequence matches the closed form |
| DXMaster.HandleAssetBought | src/dXmaster.ts:38-60 | the handler's new store is `AfterAssetBought` of the old one |
| DXMaster.AssetAddedKeepsCounted | src/dXmaster.ts:10-36 | AssetAdded preserves `Counted` |
| DXMaster.AssetBoughtKeepsCounted | src/dXmaster.ts:38-60 | AssetBought preserves `Counted` |
| DXMaster.AssetAddedKeepsRevenueWithinFee | src/dXmaster.ts:35 | AssetAdded records no sale, so it preserves revenue ≤ volume × fee / 100 |
| DXMaster.AssetBoughtKeepsRevenueWithinFee | src/dXmaster.ts:59 | AssetBought preserves revenue ≤ volume × fee / 100 |
| MarketPlace.AfterPostCreated | src/marketPlace.ts:10-33 | the post's row is the loaded row with the event's fields and author; the author's Creator row gains one asset and the price as worth; stats gain one asset and the price as worth; no sale is recorded; the only statistics row written is the one under `BYTES_ZERO` |
| MarketPlace.ListPost | src/marketPlace.ts:13-30 | the handler's own writes add only the token id and the author's Creator row |
| MarketPlace.ListPostSteps | src/marketPlace.ts:13-30 | the resolve, modify and save sequence matches the closed form |
| MarketPlace.HandlePostCreated | src/marketPlace.ts:10-33 | the handler's new store is `AfterPostCreated` of the old one |
| MarketPlace.AfterPostSubscribed | src/marketPlace.ts:35-57 | the asset gains one subscriber; the Creator recorded on the asset gains one subscriber and the cost as earnings; the subscriber's Holder row gains one purchase and the cost, and points at the asset; stats gain one purchase, the cost as volume and its truncated fee share; no position is created or changed, and the only statistics row written is the one under `BYTES_ZERO` |
| MarketPlace.RecordSubscription | src/marketPlace.ts:38-54 | the handler's own writes add only the asset, its recorded creator and the subscriber's Holder row |
| MarketPlace.RecordSubscriptionSteps | src/marketPlace.ts:38-54 | the resolve, modify and save sequence matches the closed form |
| MarketPlace.HandlePostSubscribed | src/marketPlace.ts:35-57 | the handler's new store is `AfterPostSubscribed` of the old one |
| MarketPlace.PostCreatedKeepsCounted | src/marketPlace.ts:10-33 | PostCreated preserves `Counted` |
| MarketPlace.PostSubscribedKeepsCounted | src/marketPlace.ts:35-57 | PostSubscribed preserves `Counted` when the asset's recorded creator already has a Creator row |
| MarketPlace.UnknownPostBreaksCounted | src/marketPlace.ts:38-47 | subscribing to an unknown token creates a Creator row keyed `BYTES_ZERO` without counting it, so `Counted` fails afterwards |
| MarketPlace.PostCreatedKeepsRevenueWithinFee | src/marketPlace.ts:32 | PostCreated records no sale, so it preserves revenue ≤ volume × fee / 100 |
| MarketPlace.PostSubscribedKeepsRevenueWithinFee | src/marketPlace.ts:56 | PostSubscribed preserves revenue ≤ volume × fee / 100 |
| DXAsset.FromKey | src/dXasset.ts:19 | definition: the sender's position key (from, asset) |
| DXAsset.ToKey | src/dXasset.ts:24 | definition: the receiver's position key (to, asset) |
| DXAsset.IsMintOrBurn | src/dXasset.ts:8-15 | definition: the sender or the receiver is the null account |
| DXAsset.Debit | src/dXasset.ts:19-22 | the sender's row is the loaded row with only the balance lowered by exactly `value`, which may go negative; payment, time, holder, asset and id stay as loaded; no other position changes |
| DXAsset.Credit | src/dXasset.ts:24-29 | the receiver's row is the loaded row with the balance raised by exactly `value` and the holder and asset set to `to` and the asset; payment, time and id stay as loaded; no other position changes |
| DXAsset.AfterTransfer | src/dXasset.ts:6-30 | a mint or a burn changes nothing; otherwise the asset is resolved and the two positions change. With distinct parties, the sender's whole row is its loaded row with `value` less, and the receiver's is its loaded row with `value` more and pointing at `to` and the asset. After a self-transfer the row is the loaded row with only its references set, so the balance is unchanged. Every other position, and every Creator, Holder and statistics row, is unchanged |
| DXAsset.TransferKeepsCounted | src/dXasset.ts:17-29 | a transfer preserves `Counted` |
| DXAsset.TransferKeepsRevenueWithinFee | src/dXasset.ts:17-29 | a transfer preserves revenue ≤ volume × fee / 100 |
| DXAsset.Supply | src/dXasset.ts:21-26 | definition: an asset's supply, the sum of balances over the positions keyed by that asset |
| DXAsset.Share | src/dXasset.ts:21-26 | definition: what one position contributes to an asset's supply |
| DXAsset.SupplyRemove | src/dXasset.ts:19-29 | an asset's supply can be split at any of its positions |
| DXAsset.SupplyUpdate | src/dXasset.ts:22-29 | overwriting one position changes the supply by the difference of its contributions |
| DXAsset.DebitCreditConserves | src/dXasset.ts:19-29 | debit then credit of the same amount, within one asset, keeps every asset's supply |
| DXAsset.TransferConservesSupply | src/dXasset.ts:6-30 | a transfer keeps every asset's total balance across positions |
| DXAsset.DebitIsStore | src/dXasset.ts:20-22 | the debit is the save of the modified loaded row |
| DXAsset.CreditIsStore | src/dXasset.ts:25-29 | the credit is the save of the modified loaded row |
| DXAsset.TransferSteps | src/dXasset.ts:17-29 | the resolve, modify and save sequence matches the closed form, with the second load seeing the first save |
| DXAsset.HandleTransfer | src/dXasset.ts:6-30 | the handler's new store is `AfterTransfer` of the old one |
| Scenarios.FirstSale | tests/dxmaster.test.ts:196-231 | a sale of 10 units at 1000 with a 5% fee gives balance 10, paid 10000, volume 10000, revenue 500, and counts of 2 users, 1 creator and 1 holder |
| Scenarios.CreatorWhoBuysCountedOnce | tests/dxmaster.test.ts:233-254 | a creator who buys is counted once as a user: 2 users, 2 creators, 1 holder |
| Scenarios.RepeatPurchaseOverwritesBalance | src/dXmaster.ts:44-57 | a second purchase of the same asset leaves the balance at the second amount, while the holder accumulates both purchases and both costs |
| Scenarios.ThreePosts | tests/marketPlace.test.ts:72-111 | three posts priced 1000000, 2000000 and 3000000 by one author give 3 assets worth 6000000, 1 creator, 1 user, no sale and a single GlobalStats row |
| Scenarios.FirstSubscription | tests/marketPlace.test.ts:115-196 | one subscription of 1000000 at a 5% fee credits the author and the holder with 1000000 and gives revenue 50000 |
| Scenarios.SmallSalesEarnNothing | src/marketPlace.ts:56 | two sales of 10 at 5% add 20 to volume but nothing to revenue, though 20 at 5% would give 1 |
| Scenarios.MintAndBurnIgnored | tests/dxasset.test.ts:24-93 | transfers from or to the null account leave the store as it was |
| Scenarios.TransfersAmongThree | tests/dxasset.test.ts:227-283 | balances of 100 and 50, after 30, 20 and 10 moved among three holders, end at 60, 60 and 30 |
| Scenarios.TransferBackAndForth | tests/dxasset.test.ts:328-375 | balances of 100 and 50, after 20 moved one way and 15 back, end at 95 and 55 |
| Scenarios.TransferAfterPurchase | src/dXasset.ts:19-24 | a transfer debits the position a purchase created, since both use the key (holder, asset) |

## Left out

- The fee percentage is the parameter `fee` of the two sale handlers. `PLATFORM_FEE_PERCENTAGE` is imported but not defined in `src/constants.ts`; the tests assume 5.
- Event decoding and the generated schema classes are not modelled. Each event is a record of already-decoded fields.
- Hex and byte conversions (`toHexString`, `Bytes.fromHexString`, `Bytes.fromBigInt`) are treated as identity on opaque ids. The marketPlace token id arrives already converted to bytes. The Purchase id string `holderHex-assetHex` is the pair `PurchaseKey(holder, asset)`, which is injective as the string is.
- The mint/burn test compares `toHexString()` with a 40-digit zero string. The model compares the address with the 20-byte null account `ZeroAddress`.
- The commented-out data-source template creation at `src/dXmaster.ts:13-15` is host-side and not modelled.
- Persistence mechanics, including durability and commits, are not modelled. A save is a map update that a later load sees.
- Block timestamps are opaque `nat` inputs, copied through.
- Fields the resolvers never initialise start at 0: `Asset.totalSubscriber`, `Creator.totalAssetWorth` and `Creator.totalSubscribers`. `Holder.asset` starts as `None`. This is an assumption about the host's defaults.
- BigInt arithmetic on the non-negative amounts is unbounded `nat`. Truncating division of non-negative values equals Dafny's division. `Purchase.balance` is a signed `int`, because a transfer subtracts without a check.
- MarketPlace.PostSubscribedKeepsCounted: proved only when the asset's recorded creator already has a Creator row. Otherwise the source itself breaks the invariant, as `MarketPlace.UnknownPostBreaksCounted` shows.
- The test-fixture files, and the placeholder tests in `tests/d-xmaster.test.ts`, are not modelled.

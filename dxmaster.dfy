/**
 * Handlers of the dXmaster contract's events: AssetAdded (a creator lists
 * an asset) and AssetBought (a buyer purchases `amount` units at the
 * asset's recorded price).
 */
module DXMaster {
  import opened Entities
  import opened EntityStore
  import opened EntityUtils
  import opened StatsUpdates

  /**
   * Store after `handleAssetAdded(e)`. Last write wins: listing an asset id
   * that already exists overwrites its descriptive fields and price.
   */
  function AfterAssetAdded(s: State, e: AssetAddedEvent): (t: State)
    ensures e.assetAddress in t.assets
    ensures t.assets[e.assetAddress] == AssetRow(s, e.assetAddress).(creator := e.author,
      title := e.assetTitle, contentCid := e.assetCid, thumbnailCid := e.thumbnailCid,
      priceInWei := e.costInNativeInWei, createdAt := e.blockTimestamp)
    // the author's Creator row exists and lists one more asset; nothing else on it moves
    ensures e.author in t.creators
    ensures var c, c0 := t.creators[e.author], CreatorRow(s, e.author);
      c == c0.(totalAssets := c0.totalAssets + 1)
    ensures t.assets.Keys == s.assets.Keys + {e.assetAddress}
    ensures t.creators.Keys == s.creators.Keys + {e.author}
    ensures forall k :: k in s.assets && k != e.assetAddress ==> t.assets[k] == s.assets[k]
    ensures forall k :: k in s.creators && k != e.author ==> t.creators[k] == s.creators[k]
    ensures t.holders == s.holders && t.purchases == s.purchases
    // GlobalStats: one more asset, the listed price added to the worth, the
    // author counted as creator and user on first sight; no sale is recorded
    ensures var g, h := StatsOf(s), StatsOf(t);
      && h.totalAssets == g.totalAssets + 1
      && h.totalAssetWorth == g.totalAssetWorth + e.costInNativeInWei
      && h.totalCreators == g.totalCreators + (if e.author in s.creators then 0 else 1)
      && h.totalUsers == g.totalUsers + (if IsNewUser(s, e.author) then 1 else 0)
      && h.totalHolders == g.totalHolders
      && h.totalPurchases == g.totalPurchases && h.totalVolume == g.totalVolume
      && h.totalRevenue == g.totalRevenue
    // only the GlobalStats singleton under `BYTES_ZERO` is written, and it keeps its id
    ensures t.stats.Keys == s.stats.Keys + {BytesZero}
    ensures forall k :: k in s.stats && k != BytesZero ==> t.stats[k] == s.stats[k]
    ensures t.stats[BytesZero].id == StatsOf(s).id
  {
    var s1 := AfterUserStats(s, e.author, true);
    assert AssetRow(s1, e.assetAddress) == AssetRow(s, e.assetAddress);
    assert CreatorRow(s1, e.author) == CreatorRow(s, e.author);
    AfterGlobalStats(ListAsset(s1, e), 1, 0, 0, 0, e.costInNativeInWei)
  }

  /**
   * The handler's own writes between the two statistics updates: the asset
   * row takes the event's fields and the author as creator, and the
   * author's Creator row lists one more asset.
   */
  function ListAsset(s: State, e: AssetAddedEvent): (t: State)
    ensures t.assets.Keys == s.assets.Keys + {e.assetAddress}
    ensures t.creators.Keys == s.creators.Keys + {e.author}
    ensures t.holders == s.holders && t.purchases == s.purchases && t.stats == s.stats
  {
    var a, c := AssetRow(s, e.assetAddress), CreatorRow(s, e.author);
    s.(assets := s.assets[e.assetAddress := a.(creator := e.author, contentCid := e.assetCid,
         title := e.assetTitle, thumbnailCid := e.thumbnailCid, priceInWei := e.costInNativeInWei,
         createdAt := e.blockTimestamp)],
       creators := s.creators[e.author := c.(totalAssets := c.totalAssets + 1)])
  }

  /** The cost of `amount` units at `price` each (`amount.times(price)`). */
  function Cost(amount: nat, price: nat): nat {
    amount * price
  }

  /** What the buyer pays: `amount` times the price recorded on the asset (0 for an unknown asset). */
  function PurchaseCost(s: State, e: AssetBoughtEvent): nat {
    Cost(e.amount, AssetRow(s, e.assetAddress).priceInWei)
  }

  /** Store after `handleAssetBought(e)` with platform fee percentage `fee`. */
  function AfterAssetBought(s: State, e: AssetBoughtEvent, fee: nat): (t: State)
    // the position is overwritten, not accumulated: its balance is the bought amount
    ensures var k := PurchaseKey(e.buyer, e.assetAddress);
      && k in t.purchases
      && t.purchases[k] == PurchaseRow(s.purchases, k).(balance := e.amount, amountPaid := PurchaseCost(s, e),
           purchasedAt := e.blockTimestamp, holder := e.buyer, asset := e.assetAddress)
    ensures t.purchases.Keys == s.purchases.Keys + {PurchaseKey(e.buyer, e.assetAddress)}
    ensures forall k :: k in s.purchases && k != PurchaseKey(e.buyer, e.assetAddress) ==>
      t.purchases[k] == s.purchases[k]
    // the buyer's Holder row exists, with one more purchase and the cost added to its spending
    ensures e.buyer in t.holders
    ensures var h, h0 := t.holders[e.buyer], HolderRow(s, e.buyer);
      h == h0.(totalPurchases := h0.totalPurchases + 1, totalSpent := h0.totalSpent + PurchaseCost(s, e))
    ensures t.holders.Keys == s.holders.Keys + {e.buyer}
    ensures forall k :: k in s.holders && k != e.buyer ==> t.holders[k] == s.holders[k]
    // an unknown asset is created as a zero row; a known one is left as it is
    ensures t.assets == Upsert(s.assets, e.assetAddress, NewAsset(e.assetAddress))
    ensures t.creators == s.creators
    // GlobalStats: one more sale, its cost in the volume and its truncated fee share in the revenue
    ensures var g, h, cost := StatsOf(s), StatsOf(t), PurchaseCost(s, e);
      && h.totalPurchases == g.totalPurchases + 1
      && h.totalVolume == g.totalVolume + cost
      && h.totalRevenue == g.totalRevenue + Revenue(cost, fee)
      && h.totalHolders == g.totalHolders + (if e.buyer in s.holders then 0 else 1)
      && h.totalUsers == g.totalUsers + (if IsNewUser(s, e.buyer) then 1 else 0)
      && h.totalCreators == g.totalCreators
      && h.totalAssets == g.totalAssets && h.totalAssetWorth == g.totalAssetWorth
    // only the GlobalStats singleton under `BYTES_ZERO` is written, and it keeps its id
    ensures t.stats.Keys == s.stats.Keys + {BytesZero}
    ensures forall k :: k in s.stats && k != BytesZero ==> t.stats[k] == s.stats[k]
    ensures t.stats[BytesZero].id == StatsOf(s).id
  {
    var s1 := AfterUserStats(s, e.buyer, false);
    assert AssetRow(s1, e.assetAddress) == AssetRow(s, e.assetAddress);
    assert HolderRow(s1, e.buyer) == HolderRow(s, e.buyer);
    var cost := PurchaseCost(s1, e);
    AfterGlobalStats(RecordPurchase(s1, e), 0, 1, cost, Revenue(cost, fee), 0)
  }

  /**
   * The handler's own writes between the two statistics updates: the asset
   * row is resolved, the buyer's Holder row is charged and the position is
   * set to the bought amount.
   */
  function RecordPurchase(s: State, e: AssetBoughtEvent): (t: State)
    ensures t.holders.Keys == s.holders.Keys + {e.buyer}
    ensures t.purchases.Keys == s.purchases.Keys + {PurchaseKey(e.buyer, e.assetAddress)}
    ensures t.creators == s.creators && t.stats == s.stats
  {
    var cost, k := PurchaseCost(s, e), PurchaseKey(e.buyer, e.assetAddress);
    var h, p := HolderRow(s, e.buyer), PurchaseRow(s.purchases, k);
    s.(assets := Upsert(s.assets, e.assetAddress, NewAsset(e.assetAddress)),
       holders := s.holders[e.buyer := h.(totalPurchases := h.totalPurchases + 1,
                                          totalSpent := h.totalSpent + cost)],
       purchases := s.purchases[k := p.(asset := e.assetAddress, holder := e.buyer, balance := e.amount,
                                        amountPaid := cost, purchasedAt := e.blockTimestamp)])
  }

  lemma AssetAddedKeepsCounted(s: State, e: AssetAddedEvent)
    requires Counted(s)
    ensures Counted(AfterAssetAdded(s, e))
  {
    RoleSetsGrow(s.creators.Keys, s.holders.Keys, e.author, true);
  }

  lemma AssetBoughtKeepsCounted(s: State, e: AssetBoughtEvent, fee: nat)
    requires Counted(s)
    ensures Counted(AfterAssetBought(s, e, fee))
  {
    RoleSetsGrow(s.creators.Keys, s.holders.Keys, e.buyer, false);
  }

  /** Listing records no sale, so volume and revenue, and the bound between them, stay. */
  lemma AssetAddedKeepsRevenueWithinFee(s: State, e: AssetAddedEvent, fee: nat)
    requires RevenueWithinFee(s, fee)
    ensures RevenueWithinFee(AfterAssetAdded(s, e), fee)
  {
  }

  lemma AssetBoughtKeepsRevenueWithinFee(s: State, e: AssetBoughtEvent, fee: nat)
    requires RevenueWithinFee(s, fee)
    ensures RevenueWithinFee(AfterAssetBought(s, e, fee), fee)
  {
    RevenueSubadditive(StatsOf(s).totalVolume, PurchaseCost(s, e), fee);
  }

  /** The resolve, modify and save steps of `handleAssetAdded`, composed, are `ListAsset`. */
  lemma ListAssetSteps(s1: State, s2: State, s3: State, s4: State, s5: State,
                       e: AssetAddedEvent, asset: Asset, creator: Creator)
    requires s2 == WithAsset(s1, e.assetAddress)
    requires asset == AssetRow(s1, e.assetAddress).(contentCid := e.assetCid, title := e.assetTitle,
      thumbnailCid := e.thumbnailCid, priceInWei := e.costInNativeInWei, createdAt := e.blockTimestamp)
    requires s3 == WithCreator(s2, e.author)
    requires creator == CreatorRow(s2, e.author).(totalAssets := CreatorRow(s2, e.author).totalAssets + 1)
    requires s4 == s3.(creators := s3.creators[e.author := creator])
    requires s5 == s4.(assets := s4.assets[e.assetAddress := asset.(creator := e.author)])
    ensures s5 == ListAsset(s1, e)
  {
    UpsertThenStore(s1.assets, e.assetAddress, NewAsset(e.assetAddress), asset.(creator := e.author));
    UpsertThenStore(s1.creators, e.author, NewCreator(e.author), creator);
  }

  /** The resolve, modify and save steps of `handleAssetBought`, composed, are `RecordPurchase`. */
  lemma RecordPurchaseSteps(s1: State, s2: State, s3: State, s4: State, s5: State, s6: State,
                            e: AssetBoughtEvent, price: nat, h0: Holder, holder: Holder,
                            p0: Purchase, purchase: Purchase)
    requires s2 == WithAsset(s1, e.assetAddress)
    requires price == AssetRow(s1, e.assetAddress).priceInWei
    requires s3 == WithHolder(s2, e.buyer)
    requires h0 == HolderRow(s2, e.buyer)
    requires holder == h0.(totalPurchases := h0.totalPurchases + 1, totalSpent := h0.totalSpent + Cost(e.amount, price))
    requires s4 == s3.(holders := s3.holders[e.buyer := holder])
    requires s5 == WithPurchase(s4, PurchaseKey(e.buyer, e.assetAddress))
    requires p0 == PurchaseRow(s4.purchases, PurchaseKey(e.buyer, e.assetAddress))
    requires purchase == p0.(balance := e.amount, amountPaid := Cost(e.amount, price),
      purchasedAt := e.blockTimestamp, holder := e.buyer, asset := e.assetAddress)
    requires s6 == s5.(purchases := s5.purchases[PurchaseKey(e.buyer, e.assetAddress) := purchase])
    ensures s6 == RecordPurchase(s1, e)
  {
    UpsertThenStore(s1.holders, e.buyer, NewHolder(e.buyer), holder);
    var k := PurchaseKey(e.buyer, e.assetAddress);
    UpsertThenStore(s1.purchases, k, NewPurchase(k), purchase);
  }

  method HandleAssetAdded(st: Store, e: AssetAddedEvent)
    requires st.Valid()
    modifies st
    ensures st.Valid()
    ensures st.Snapshot() == AfterAssetAdded(old(st.Snapshot()), e)
  {
    UpdateUserStats(st, e.author, true);
    ghost var s1 := st.Snapshot();

    var assetId := e.assetAddress;
    var asset := LoadOrCreateAsset(st, assetId);
    ghost var s2 := st.Snapshot();

    asset := asset.(contentCid := e.assetCid, title := e.assetTitle, thumbnailCid := e.thumbnailCid,
                    priceInWei := e.costInNativeInWei, createdAt := e.blockTimestamp);

    var creatorId := e.author;
    var creator := LoadOrCreateCreator(st, creatorId);
    ghost var s3 := st.Snapshot();
    creator := creator.(totalAssets := creator.totalAssets + 1);
    assert creator.id == e.author;
    st.SaveCreator(creator);
    ghost var s4 := st.Snapshot();

    ghost var listed := asset;
    asset := asset.(creator := creator.id);
    assert asset.id == e.assetAddress;
    st.SaveAsset(asset);
    ghost var s5 := st.Snapshot();

    ListAssetSteps(s1, s2, s3, s4, s5, e, listed, creator);
    UpdateGlobalStats(st, 1, 0, 0, 0, asset.priceInWei);
  }

  method HandleAssetBought(st: Store, e: AssetBoughtEvent, fee: nat)
    requires st.Valid()
    modifies st
    ensures st.Valid()
    ensures st.Snapshot() == AfterAssetBought(old(st.Snapshot()), e, fee)
  {
    UpdateUserStats(st, e.buyer, false);
    ghost var s1 := st.Snapshot();

    var assetId := e.assetAddress;
    var asset := LoadOrCreateAsset(st, assetId);
    ghost var s2 := st.Snapshot();

    var holderId := e.buyer;
    var holder := LoadOrCreateHolder(st, holderId);
    ghost var s3 := st.Snapshot();
    ghost var h0 := holder;
    holder := holder.(totalPurchases := holder.totalPurchases + 1,
                      totalSpent := holder.totalSpent + Cost(e.amount, asset.priceInWei));
    assert holder.id == e.buyer;
    st.SaveHolder(holder);
    ghost var s4 := st.Snapshot();

    var purchaseId := PurchaseKey(e.buyer, e.assetAddress);
    var purchase := LoadOrCreatePurchase(st, purchaseId);
    ghost var s5 := st.Snapshot();
    ghost var p0 := purchase;
    purchase := purchase.(balance := e.amount, amountPaid := Cost(e.amount, asset.priceInWei),
      purchasedAt := e.blockTimestamp, holder := holder.id, asset := assetId);
    assert purchase.id == purchaseId;
    st.SavePurchase(purchase);
    ghost var s6 := st.Snapshot();

    RecordPurchaseSteps(s1, s2, s3, s4, s5, s6, e, asset.priceInWei, h0, holder, p0, purchase);
    var cost := Cost(e.amount, asset.priceInWei);
    UpdateGlobalStats(st, 0, 1, cost, Revenue(cost, fee), 0);
  }
}

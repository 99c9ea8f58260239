/**
 * Handlers of the marketPlace contract's events: PostCreated (a creator
 * publishes a post, stored as an Asset keyed by its token id) and
 * PostSubscribed (a subscriber pays `totalCost` for a post).
 */
module MarketPlace {
  import opened Entities
  import opened EntityStore
  import opened EntityUtils
  import opened StatsUpdates

  /**
   * Store after `handlePostCreated(e)`. As for an AssetAdded listing, the
   * post's fields are overwritten (last write wins); unlike it, the
   * creator's own listed worth also grows by the price.
   */
  function AfterPostCreated(s: State, e: PostCreatedEvent): (t: State)
    ensures e.tokenId in t.assets
    ensures t.assets[e.tokenId] == AssetRow(s, e.tokenId).(creator := e.author,
      title := e.postTitle, contentCid := e.postCid, thumbnailCid := e.thumbnailCid,
      priceInWei := e.costInNativeInWei, createdAt := e.blockTimestamp)
    ensures e.author in t.creators
    ensures var c, c0 := t.creators[e.author], CreatorRow(s, e.author);
      c == c0.(totalAssets := c0.totalAssets + 1, totalAssetWorth := c0.totalAssetWorth + e.costInNativeInWei)
    ensures t.assets.Keys == s.assets.Keys + {e.tokenId}
    ensures t.creators.Keys == s.creators.Keys + {e.author}
    ensures forall k :: k in s.assets && k != e.tokenId ==> t.assets[k] == s.assets[k]
    ensures forall k :: k in s.creators && k != e.author ==> t.creators[k] == s.creators[k]
    ensures t.holders == s.holders && t.purchases == s.purchases
    ensures var g, h := StatsOf(s), StatsOf(t);
      && h.totalAssets == g.totalAssets + 1
      && h.totalAssetWorth == g.totalAssetWorth + e.costInNativeInWei
      && h.totalCreators == g.totalCreators + (if e.author in s.creators then 0 else 1)
      && h.totalUsers == g.totalUsers + (if IsNewUser(s, e.author) then 1 else 0)
      && h.totalHolders == g.totalHolders
      && h.totalPurchases == g.totalPurchases && h.totalVolume == g.totalVolume
      && h.totalRevenue == g.totalRevenue
    // only the GlobalStats singleton under `BYTES_ZERO` is written, and it keeps its id
    ensures t.stats.Keys == s.stats.Keys + {BytesZero}
    ensures forall k :: k in s.stats && k != BytesZero ==> t.stats[k] == s.stats[k]
    ensures t.stats[BytesZero].id == StatsOf(s).id
  {
    var s1 := AfterUserStats(s, e.author, true);
    assert AssetRow(s1, e.tokenId) == AssetRow(s, e.tokenId);
    assert CreatorRow(s1, e.author) == CreatorRow(s, e.author);
    AfterGlobalStats(ListPost(s1, e), 1, 0, 0, 0, e.costInNativeInWei)
  }

  /**
   * The handler's own writes between the two statistics updates: the post's
   * Asset row takes the event's fields and the author as creator; the
   * author's Creator row lists one more asset and adds the price to its worth.
   */
  function ListPost(s: State, e: PostCreatedEvent): (t: State)
    ensures t.assets.Keys == s.assets.Keys + {e.tokenId}
    ensures t.creators.Keys == s.creators.Keys + {e.author}
    ensures t.holders == s.holders && t.purchases == s.purchases && t.stats == s.stats
  {
    var a, c := AssetRow(s, e.tokenId), CreatorRow(s, e.author);
    s.(assets := s.assets[e.tokenId := a.(creator := e.author, contentCid := e.postCid,
         title := e.postTitle, thumbnailCid := e.thumbnailCid, priceInWei := e.costInNativeInWei,
         createdAt := e.blockTimestamp)],
       creators := s.creators[e.author := c.(totalAssets := c.totalAssets + 1,
                                             totalAssetWorth := c.totalAssetWorth + e.costInNativeInWei)])
  }

  /**
   * Store after `handlePostSubscribed(e)` with platform fee percentage
   * `fee`. The creator credited is whatever the post's Asset row records; for
   * an unknown token that is the zero-valued row's `BytesZero`.
   */
  function AfterPostSubscribed(s: State, e: PostSubscribedEvent, fee: nat): (t: State)
    ensures e.tokenId in t.assets
    ensures var a0 := AssetRow(s, e.tokenId);
      t.assets[e.tokenId] == a0.(totalSubscriber := a0.totalSubscriber + 1)
    ensures var author := AssetRow(s, e.tokenId).creator;
      && author in t.creators
      && var c0 := CreatorRow(s, author);
         t.creators[author] == c0.(totalSubscribers := c0.totalSubscribers + 1,
                                   totalEarnings := c0.totalEarnings + e.totalCost)
    ensures e.subscriber in t.holders
    ensures var h0 := HolderRow(s, e.subscriber);
      t.holders[e.subscriber] == h0.(totalPurchases := h0.totalPurchases + 1,
                                     totalSpent := h0.totalSpent + e.totalCost, asset := Some(e.tokenId))
    ensures t.assets.Keys == s.assets.Keys + {e.tokenId}
    ensures t.creators.Keys == s.creators.Keys + {AssetRow(s, e.tokenId).creator}
    ensures t.holders.Keys == s.holders.Keys + {e.subscriber}
    ensures forall k :: k in s.assets && k != e.tokenId ==> t.assets[k] == s.assets[k]
    ensures forall k :: k in s.creators && k != AssetRow(s, e.tokenId).creator ==> t.creators[k] == s.creators[k]
    ensures forall k :: k in s.holders && k != e.subscriber ==> t.holders[k] == s.holders[k]
    // a subscription is not a position: no Purchase row is created or changed
    ensures t.purchases == s.purchases
    ensures var g, h := StatsOf(s), StatsOf(t);
      && h.totalPurchases == g.totalPurchases + 1
      && h.totalVolume == g.totalVolume + e.totalCost
      && h.totalRevenue == g.totalRevenue + Revenue(e.totalCost, fee)
      && h.totalHolders == g.totalHolders + (if e.subscriber in s.holders then 0 else 1)
      && h.totalUsers == g.totalUsers + (if IsNewUser(s, e.subscriber) then 1 else 0)
      && h.totalCreators == g.totalCreators
      && h.totalAssets == g.totalAssets && h.totalAssetWorth == g.totalAssetWorth
    // only the GlobalStats singleton under `BYTES_ZERO` is written, and it keeps its id
    ensures t.stats.Keys == s.stats.Keys + {BytesZero}
    ensures forall k :: k in s.stats && k != BytesZero ==> t.stats[k] == s.stats[k]
    ensures t.stats[BytesZero].id == StatsOf(s).id
  {
    var s1 := AfterUserStats(s, e.subscriber, false);
    assert AssetRow(s1, e.tokenId) == AssetRow(s, e.tokenId);
    assert HolderRow(s1, e.subscriber) == HolderRow(s, e.subscriber);
    AfterGlobalStats(RecordSubscription(s1, e), 0, 1, e.totalCost, Revenue(e.totalCost, fee), 0)
  }

  /**
   * The handler's own writes between the two statistics updates: the post
   * counts one more subscriber, its recorded creator is credited, and the
   * subscriber's Holder row is charged and pointed at the post.
   */
  function RecordSubscription(s: State, e: PostSubscribedEvent): (t: State)
    ensures t.assets.Keys == s.assets.Keys + {e.tokenId}
    ensures t.creators.Keys == s.creators.Keys + {AssetRow(s, e.tokenId).creator}
    ensures t.holders.Keys == s.holders.Keys + {e.subscriber}
    ensures t.purchases == s.purchases && t.stats == s.stats
  {
    var a := AssetRow(s, e.tokenId);
    var c, h := CreatorRow(s, a.creator), HolderRow(s, e.subscriber);
    s.(assets := s.assets[e.tokenId := a.(totalSubscriber := a.totalSubscriber + 1)],
       creators := s.creators[a.creator := c.(totalSubscribers := c.totalSubscribers + 1,
                                              totalEarnings := c.totalEarnings + e.totalCost)],
       holders := s.holders[e.subscriber := h.(totalPurchases := h.totalPurchases + 1,
                                               totalSpent := h.totalSpent + e.totalCost,
                                               asset := Some(e.tokenId))])
  }

  lemma PostCreatedKeepsCounted(s: State, e: PostCreatedEvent)
    requires Counted(s)
    ensures Counted(AfterPostCreated(s, e))
  {
    RoleSetsGrow(s.creators.Keys, s.holders.Keys, e.author, true);
  }

  /**
   * Subscribing keeps the counters in step with the rows as long as the
   * credited creator already has its row, which holds for every post listed
   * by `handlePostCreated`.
   */
  lemma PostSubscribedKeepsCounted(s: State, e: PostSubscribedEvent, fee: nat)
    requires Counted(s)
    requires AssetRow(s, e.tokenId).creator in s.creators
    ensures Counted(AfterPostSubscribed(s, e, fee))
  {
    var t := AfterPostSubscribed(s, e, fee);
    assert t.creators.Keys == s.creators.Keys;
    assert t.holders.Keys == s.holders.Keys + {e.subscriber};
    RoleSetsGrow(s.creators.Keys, s.holders.Keys, e.subscriber, false);
  }

  /**
   * Subscribing to a token no post created yet credits a Creator row under
   * `BytesZero` that `totalCreators` never counts: the creator counter falls
   * out of step with the rows.
   */
  lemma UnknownPostBreaksCounted(s: State, e: PostSubscribedEvent, fee: nat)
    requires Counted(s)
    requires e.tokenId !in s.assets && BytesZero !in s.creators
    ensures !Counted(AfterPostSubscribed(s, e, fee))
    ensures BytesZero in AfterPostSubscribed(s, e, fee).creators
  {
    var t := AfterPostSubscribed(s, e, fee);
    assert AssetRow(s, e.tokenId).creator == BytesZero;
    assert t.creators.Keys == s.creators.Keys + {BytesZero};
    assert |t.creators.Keys| == |s.creators.Keys| + 1;
  }

  /** Listing a post records no sale, so volume and revenue, and the bound between them, stay. */
  lemma PostCreatedKeepsRevenueWithinFee(s: State, e: PostCreatedEvent, fee: nat)
    requires RevenueWithinFee(s, fee)
    ensures RevenueWithinFee(AfterPostCreated(s, e), fee)
  {
  }

  lemma PostSubscribedKeepsRevenueWithinFee(s: State, e: PostSubscribedEvent, fee: nat)
    requires RevenueWithinFee(s, fee)
    ensures RevenueWithinFee(AfterPostSubscribed(s, e, fee), fee)
  {
    RevenueSubadditive(StatsOf(s).totalVolume, e.totalCost, fee);
  }

  /** The resolve, modify and save steps of `handlePostCreated`, composed, are `ListPost`. */
  lemma ListPostSteps(s1: State, s2: State, s3: State, s4: State, s5: State,
                      e: PostCreatedEvent, asset: Asset, c0: Creator, creator: Creator)
    requires s2 == WithAsset(s1, e.tokenId)
    requires asset == AssetRow(s1, e.tokenId).(contentCid := e.postCid, title := e.postTitle,
      thumbnailCid := e.thumbnailCid, priceInWei := e.costInNativeInWei, createdAt := e.blockTimestamp)
    requires s3 == WithCreator(s2, e.author)
    requires c0 == CreatorRow(s2, e.author)
    requires creator == c0.(totalAssets := c0.totalAssets + 1,
                            totalAssetWorth := c0.totalAssetWorth + asset.priceInWei)
    requires s4 == s3.(creators := s3.creators[e.author := creator])
    requires s5 == s4.(assets := s4.assets[e.tokenId := asset.(creator := e.author)])
    ensures s5 == ListPost(s1, e)
  {
    UpsertThenStore(s1.assets, e.tokenId, NewAsset(e.tokenId), asset.(creator := e.author));
    UpsertThenStore(s1.creators, e.author, NewCreator(e.author), creator);
  }

  /** The resolve, modify and save steps of `handlePostSubscribed`, composed, are `RecordSubscription`. */
  lemma RecordSubscriptionSteps(s1: State, s2: State, s3: State, s4: State, s5: State, s6: State,
                                s7: State, e: PostSubscribedEvent, asset: Asset, c0: Creator,
                                creator: Creator, h0: Holder, holder: Holder)
    requires s2 == WithAsset(s1, e.tokenId)
    requires asset == AssetRow(s1, e.tokenId).(totalSubscriber := AssetRow(s1, e.tokenId).totalSubscriber + 1)
    requires s3 == s2.(assets := s2.assets[e.tokenId := asset])
    requires s4 == WithCreator(s3, asset.creator)
    requires c0 == CreatorRow(s3, asset.creator)
    requires creator == c0.(totalSubscribers := c0.totalSubscribers + 1, totalEarnings := c0.totalEarnings + e.totalCost)
    requires s5 == s4.(creators := s4.creators[asset.creator := creator])
    requires s6 == WithHolder(s5, e.subscriber)
    requires h0 == HolderRow(s5, e.subscriber)
    requires holder == h0.(totalPurchases := h0.totalPurchases + 1, totalSpent := h0.totalSpent + e.totalCost,
                           asset := Some(e.tokenId))
    requires s7 == s6.(holders := s6.holders[e.subscriber := holder])
    ensures s7 == RecordSubscription(s1, e)
  {
    UpsertThenStore(s1.assets, e.tokenId, NewAsset(e.tokenId), asset);
    UpsertThenStore(s1.creators, asset.creator, NewCreator(asset.creator), creator);
    UpsertThenStore(s1.holders, e.subscriber, NewHolder(e.subscriber), holder);
  }

  method HandlePostCreated(st: Store, e: PostCreatedEvent)
    requires st.Valid()
    modifies st
    ensures st.Valid()
    ensures st.Snapshot() == AfterPostCreated(old(st.Snapshot()), e)
  {
    UpdateUserStats(st, e.author, true);
    ghost var s1 := st.Snapshot();

    var assetId := e.tokenId;
    var asset := LoadOrCreateAsset(st, assetId);
    ghost var s2 := st.Snapshot();
    asset := asset.(contentCid := e.postCid, title := e.postTitle, thumbnailCid := e.thumbnailCid,
                    priceInWei := e.costInNativeInWei, createdAt := e.blockTimestamp);

    var creatorId := e.author;
    var creator := LoadOrCreateCreator(st, creatorId);
    ghost var s3 := st.Snapshot();
    ghost var c0 := creator;
    creator := creator.(totalAssets := creator.totalAssets + 1,
                        totalAssetWorth := creator.totalAssetWorth + asset.priceInWei);
    assert creator.id == e.author;
    st.SaveCreator(creator);
    ghost var s4 := st.Snapshot();

    ghost var listed := asset;
    asset := asset.(creator := creator.id);
    assert asset.id == e.tokenId;
    st.SaveAsset(asset);
    ghost var s5 := st.Snapshot();

    ListPostSteps(s1, s2, s3, s4, s5, e, listed, c0, creator);
    UpdateGlobalStats(st, 1, 0, 0, 0, asset.priceInWei);
  }

  method HandlePostSubscribed(st: Store, e: PostSubscribedEvent, fee: nat)
    requires st.Valid()
    modifies st
    ensures st.Valid()
    ensures st.Snapshot() == AfterPostSubscribed(old(st.Snapshot()), e, fee)
  {
    UpdateUserStats(st, e.subscriber, false);
    ghost var s1 := st.Snapshot();

    var assetId := e.tokenId;
    var asset := LoadOrCreateAsset(st, assetId);
    ghost var s2 := st.Snapshot();
    asset := asset.(totalSubscriber := asset.totalSubscriber + 1);
    assert asset.id == e.tokenId;
    st.SaveAsset(asset);
    ghost var s3 := st.Snapshot();

    var creatorId := asset.creator;
    var creator := LoadOrCreateCreator(st, creatorId);
    ghost var s4 := st.Snapshot();
    ghost var c0 := creator;
    creator := creator.(totalSubscribers := creator.totalSubscribers + 1,
                        totalEarnings := creator.totalEarnings + e.totalCost);
    assert creator.id == creatorId;
    st.SaveCreator(creator);
    ghost var s5 := st.Snapshot();

    var holderId := e.subscriber;
    var holder := LoadOrCreateHolder(st, holderId);
    ghost var s6 := st.Snapshot();
    ghost var h0 := holder;
    holder := holder.(totalPurchases := holder.totalPurchases + 1,
                      totalSpent := holder.totalSpent + e.totalCost, asset := Some(asset.id));
    assert holder.id == e.subscriber;
    st.SaveHolder(holder);
    ghost var s7 := st.Snapshot();

    RecordSubscriptionSteps(s1, s2, s3, s4, s5, s6, s7, e, asset, c0, creator, h0, holder);
    UpdateGlobalStats(st, 0, 1, e.totalCost, Revenue(e.totalCost, fee), 0);
  }
}

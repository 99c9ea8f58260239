/**
 * Event sequences from the repository's unit tests, stated over arbitrary
 * addresses and, where the test starts from a populated store, over any
 * store with the positions it sets up. Each lemma pins down the figures the
 * test asserts.
 */
module Scenarios {
  import opened Entities
  import opened EntityStore
  import opened EntityUtils
  import opened StatsUpdates
  import opened DXMaster
  import opened MarketPlace
  import opened DXAsset

  /** An asset listed at 1000 and 10 units of it bought at a 5% fee: cost 10000, revenue 500. */
  lemma FirstSale(asset: Id, author: Id, buyer: Id, at: nat)
    requires author != buyer
    ensures var s1 := AfterAssetAdded(EmptyState, AssetAddedEvent(asset, "Test Asset", "QmTest", "QmThumb", author, 1000, at));
            var s2 := AfterAssetBought(s1, AssetBoughtEvent(asset, 10, buyer, at), 5);
            var p, g := s2.purchases[PurchaseKey(buyer, asset)], StatsOf(s2);
            && p.balance == 10 && p.amountPaid == 10000 && p.holder == buyer && p.asset == asset
            && s2.purchases.Keys == {PurchaseKey(buyer, asset)}
            && s2.holders[buyer].totalPurchases == 1 && s2.holders[buyer].totalSpent == 10000
            && g.totalPurchases == 1 && g.totalVolume == 10000 && g.totalRevenue == 500
            && g.totalUsers == 2 && g.totalCreators == 1 && g.totalHolders == 1
  {
    var s1 := AfterAssetAdded(EmptyState, AssetAddedEvent(asset, "Test Asset", "QmTest", "QmThumb", author, 1000, at));
    var e := AssetBoughtEvent(asset, 10, buyer, at);
    assert PurchaseCost(s1, e) == 10000 by {
      assert AssetRow(s1, asset).priceInWei == 1000;
    }
    assert Revenue(10000, 5) == 500;
  }

  /**
   * A creator who later buys another creator's asset is one user in two
   * roles: two users, two creators, one holder.
   */
  lemma CreatorWhoBuysCountedOnce(user: Id, creator2: Id, asset1: Id, asset2: Id, at: nat, fee: nat)
    requires user != creator2
    ensures var s1 := AfterAssetAdded(EmptyState, AssetAddedEvent(asset1, "Asset 1", "QmTest1", "QmThumb1", user, 1000, at));
            var s2 := AfterAssetAdded(s1, AssetAddedEvent(asset2, "Asset 2", "QmTest2", "QmThumb2", creator2, 2000, at));
            var s3 := AfterAssetBought(s2, AssetBoughtEvent(asset2, 3, user, at), fee);
            && StatsOf(s3).totalUsers == 2 && StatsOf(s3).totalCreators == 2 && StatsOf(s3).totalHolders == 1
  {
    var s1 := AfterAssetAdded(EmptyState, AssetAddedEvent(asset1, "Asset 1", "QmTest1", "QmThumb1", user, 1000, at));
    var s2 := AfterAssetAdded(s1, AssetAddedEvent(asset2, "Asset 2", "QmTest2", "QmThumb2", creator2, 2000, at));
    assert user in s2.creators && user !in s2.holders;
  }

  /** Buying the same asset twice: the position holds the second amount, the holder both purchases. */
  lemma RepeatPurchaseOverwritesBalance(s: State, e1: AssetBoughtEvent, e2: AssetBoughtEvent, fee: nat)
    requires e1.buyer == e2.buyer && e1.assetAddress == e2.assetAddress
    ensures var t := AfterAssetBought(AfterAssetBought(s, e1, fee), e2, fee);
            var h0 := HolderRow(s, e1.buyer);
            && t.purchases[PurchaseKey(e1.buyer, e1.assetAddress)].balance == e2.amount
            && t.holders[e1.buyer].totalPurchases == h0.totalPurchases + 2
            && t.holders[e1.buyer].totalSpent == h0.totalSpent + PurchaseCost(s, e1) + PurchaseCost(s, e2)
  {
    var s1 := AfterAssetBought(s, e1, fee);
    assert AssetRow(s1, e2.assetAddress) == AssetRow(s, e2.assetAddress);
  }

  /** Three posts by one author priced 1000000, 2000000 and 3000000. */
  lemma ThreePosts(author: Id, id1: Id, id2: Id, id3: Id, at: nat)
    ensures var s1 := AfterPostCreated(EmptyState, PostCreatedEvent(id1, "Post 1", "QmTest1", "QmThumb1", author, 1000000, at));
            var s2 := AfterPostCreated(s1, PostCreatedEvent(id2, "Post 2", "QmTest2", "QmThumb2", author, 2000000, at));
            var s3 := AfterPostCreated(s2, PostCreatedEvent(id3, "Test Post", "QmTestCID123", "QmThumbnail123", author, 3000000, at));
            var g := StatsOf(s3);
            && s3.creators.Keys == {author} && s3.creators[author].totalAssets == 3
            && g.totalAssets == 3 && g.totalAssetWorth == 6000000
            && g.totalCreators == 1 && g.totalUsers == 1
            && g.totalPurchases == 0 && g.totalVolume == 0
            && s3.stats.Keys == {BytesZero}
  {
    var s1 := AfterPostCreated(EmptyState, PostCreatedEvent(id1, "Post 1", "QmTest1", "QmThumb1", author, 1000000, at));
    var s2 := AfterPostCreated(s1, PostCreatedEvent(id2, "Post 2", "QmTest2", "QmThumb2", author, 2000000, at));
    assert author in s1.creators && author in s2.creators;
  }

  /** A post priced 1000000 and one subscription to it at a 5% fee. */
  lemma FirstSubscription(tokenId: Id, author: Id, buyer: Id, at: nat)
    ensures var s1 := AfterPostCreated(EmptyState, PostCreatedEvent(tokenId, "Test Post", "QmTestCID123", "QmThumbnail123", author, 1000000, at));
            var s2 := AfterPostSubscribed(s1, PostSubscribedEvent(tokenId, buyer, 1000000, at), 5);
            var g := StatsOf(s2);
            && s2.holders.Keys == {buyer}
            && s2.holders[buyer].totalPurchases == 1 && s2.holders[buyer].totalSpent == 1000000
            && s2.creators[author].totalEarnings == 1000000
            && g.totalPurchases == 1 && g.totalVolume == 1000000 && g.totalRevenue == 50000
            && g.totalHolders == 1
  {
    var s1 := AfterPostCreated(EmptyState, PostCreatedEvent(tokenId, "Test Post", "QmTestCID123", "QmThumbnail123", author, 1000000, at));
    assert AssetRow(s1, tokenId).creator == author;
    assert CreatorRow(s1, author).totalEarnings == 0;
    assert Revenue(1000000, 5) == 50000;
  }

  /**
   * Two sales of 10 at a 5% fee each earn nothing, though their sum would
   * earn 1: the revenue bound is not tight.
   */
  lemma SmallSalesEarnNothing(s: State, e1: PostSubscribedEvent, e2: PostSubscribedEvent)
    requires e1.totalCost == 10 && e2.totalCost == 10
    ensures var t := AfterPostSubscribed(AfterPostSubscribed(s, e1, 5), e2, 5);
            && StatsOf(t).totalVolume == StatsOf(s).totalVolume + 20
            && StatsOf(t).totalRevenue == StatsOf(s).totalRevenue
            && Revenue(20, 5) == 1
  {
    assert Revenue(10, 5) == 0;
  }

  /** A transfer to or from the null account changes nothing, whatever else it carries. */
  lemma MintAndBurnIgnored(s: State, address: Id, other: Id, value: nat)
    ensures AfterTransfer(s, TransferEvent(address, ZeroAddress, other, value)) == s
    ensures AfterTransfer(s, TransferEvent(address, other, ZeroAddress, value)) == s
  {
  }

  /** 100 and 50 held; 30 from 1 to 2, 20 from 2 to 3, 10 from 1 to 3: 60, 60 and 30. */
  lemma TransfersAmongThree(s: State, a: Id, h1: Id, h2: Id, h3: Id)
    requires h1 != h2 && h2 != h3 && h1 != h3
    requires h1 != ZeroAddress && h2 != ZeroAddress && h3 != ZeroAddress
    requires PurchaseRow(s.purchases, PurchaseKey(h1, a)).balance == 100
    requires PurchaseRow(s.purchases, PurchaseKey(h2, a)).balance == 50
    requires PurchaseKey(h3, a) !in s.purchases
    ensures var s1 := AfterTransfer(s, TransferEvent(a, h1, h2, 30));
            var s2 := AfterTransfer(s1, TransferEvent(a, h2, h3, 20));
            var s3 := AfterTransfer(s2, TransferEvent(a, h1, h3, 10));
            && s3.purchases[PurchaseKey(h1, a)].balance == 60
            && s3.purchases[PurchaseKey(h2, a)].balance == 60
            && s3.purchases[PurchaseKey(h3, a)].balance == 30
  {
    var s1 := AfterTransfer(s, TransferEvent(a, h1, h2, 30));
    var s2 := AfterTransfer(s1, TransferEvent(a, h2, h3, 20));
    assert PurchaseRow(s1.purchases, PurchaseKey(h1, a)).balance == 70;
    assert PurchaseRow(s2.purchases, PurchaseKey(h1, a)).balance == 70;
    assert PurchaseRow(s2.purchases, PurchaseKey(h3, a)).balance == 20;
  }

  /** 100 and 50 held; 20 one way, 15 back: 95 and 55. */
  lemma TransferBackAndForth(s: State, a: Id, h1: Id, h2: Id)
    requires h1 != h2 && h1 != ZeroAddress && h2 != ZeroAddress
    requires PurchaseRow(s.purchases, PurchaseKey(h1, a)).balance == 100
    requires PurchaseRow(s.purchases, PurchaseKey(h2, a)).balance == 50
    ensures var s1 := AfterTransfer(s, TransferEvent(a, h1, h2, 20));
            var s2 := AfterTransfer(s1, TransferEvent(a, h2, h1, 15));
            && s2.purchases[PurchaseKey(h1, a)].balance == 95
            && s2.purchases[PurchaseKey(h2, a)].balance == 55
  {
    var s1 := AfterTransfer(s, TransferEvent(a, h1, h2, 20));
    assert PurchaseRow(s1.purchases, PurchaseKey(h1, a)).balance == 80;
    assert PurchaseRow(s1.purchases, PurchaseKey(h2, a)).balance == 70;
  }

  /**
   * A transfer acts on the position a purchase created: both use the key
   * (holder, asset), so the bought amount is what the transfer debits.
   */
  lemma TransferAfterPurchase(s: State, buy: AssetBoughtEvent, fee: nat, to: Id, value: nat)
    requires buy.buyer != to && buy.buyer != ZeroAddress && to != ZeroAddress
    ensures var s1 := AfterAssetBought(s, buy, fee);
            var t := AfterTransfer(s1, TransferEvent(buy.assetAddress, buy.buyer, to, value));
            && t.purchases[PurchaseKey(buy.buyer, buy.assetAddress)].balance == buy.amount - value
            && t.purchases[PurchaseKey(to, buy.assetAddress)].balance
               == PurchaseRow(s.purchases, PurchaseKey(to, buy.assetAddress)).balance + value
            && StatsOf(t) == StatsOf(s1)
  {
    var s1 := AfterAssetBought(s, buy, fee);
    assert PurchaseRow(s1.purchases, PurchaseKey(to, buy.assetAddress))
        == PurchaseRow(s.purchases, PurchaseKey(to, buy.assetAddress));
  }
}

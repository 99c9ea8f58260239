/**
 * The five entity kinds of the subgraph schema (Asset, Creator, Holder,
 * Purchase, GlobalStats), their identifiers, the zero-valued defaults that
 * the load-or-create resolver gives a fresh row, and the decoded events the
 * handlers consume.
 */
module Entities {

  /** An entity identifier or account address: the raw bytes of a graph-ts `Bytes`. */
  type Id = seq<bv8>

  /** `Bytes.fromI32(0)`: the sentinel reference and the key of the GlobalStats singleton. */
  const BytesZero: Id := [0, 0, 0, 0]

  /** The 20-byte null account: source of a mint, destination of a burn. */
  const ZeroAddress: Id := [0, 0, 0, 0, 0, 0, 0, 0, 0, 0, 0, 0, 0, 0, 0, 0, 0, 0, 0, 0]

  datatype Option<T> = None | Some(value: T)

  /**
   * The key of a position. The source builds the string
   * `holder.toHexString() + "-" + asset.toHexString()`; that string is
   * injective in the pair, so the pair itself is the key here.
   */
  datatype PurchaseKey = PurchaseKey(holder: Id, asset: Id)

  datatype Asset = Asset(
    id: Id,
    creator: Id,
    contentCid: string,
    title: string,
    thumbnailCid: string,
    priceInWei: nat,
    createdAt: nat,
    totalSubscriber: nat)

  datatype Creator = Creator(
    id: Id,
    totalAssets: nat,
    totalEarnings: nat,
    totalAssetWorth: nat,
    totalSubscribers: nat)

  datatype Holder = Holder(
    id: Id,
    totalPurchases: nat,
    totalSpent: nat,
    asset: Option<Id>)

  /** A position; its balance is signed because transfers subtract without a check. */
  datatype Purchase = Purchase(
    id: PurchaseKey,
    asset: Id,
    holder: Id,
    balance: int,
    amountPaid: nat,
    purchasedAt: nat)

  datatype GlobalStats = GlobalStats(
    id: Id,
    totalAssets: nat,
    totalCreators: nat,
    totalHolders: nat,
    totalUsers: nat,
    totalPurchases: nat,
    totalVolume: nat,
    totalRevenue: nat,
    totalAssetWorth: nat)

  // Zero-valued rows as the resolver creates them. Fields the resolver
  // never assigns (Asset.totalSubscriber, Creator.totalAssetWorth,
  // Creator.totalSubscribers) are taken to start at 0, Holder.asset unset.

  function NewAsset(id: Id): Asset {
    Asset(id, BytesZero, "", "", "", 0, 0, 0)
  }

  function NewCreator(id: Id): Creator {
    Creator(id, 0, 0, 0, 0)
  }

  function NewHolder(id: Id): Holder {
    Holder(id, 0, 0, None)
  }

  function NewPurchase(id: PurchaseKey): Purchase {
    Purchase(id, BytesZero, BytesZero, 0, 0, 0)
  }

  function NewGlobalStats(id: Id): GlobalStats {
    GlobalStats(id, 0, 0, 0, 0, 0, 0, 0, 0)
  }

  // Decoded events, one per handler.

  datatype AssetAddedEvent = AssetAddedEvent(
    assetAddress: Id,
    assetTitle: string,
    assetCid: string,
    thumbnailCid: string,
    author: Id,
    costInNativeInWei: nat,
    blockTimestamp: nat)

  datatype AssetBoughtEvent = AssetBoughtEvent(
    assetAddress: Id,
    amount: nat,
    buyer: Id,
    blockTimestamp: nat)

  /** `tokenId` is the asset id already converted to bytes (`Bytes.fromBigInt`). */
  datatype PostCreatedEvent = PostCreatedEvent(
    tokenId: Id,
    postTitle: string,
    postCid: string,
    thumbnailCid: string,
    author: Id,
    costInNativeInWei: nat,
    blockTimestamp: nat)

  datatype PostSubscribedEvent = PostSubscribedEvent(
    tokenId: Id,
    subscriber: Id,
    totalCost: nat,
    blockTimestamp: nat)

  /** `address` is the asset contract that emitted the event. */
  datatype TransferEvent = TransferEvent(
    address: Id,
    from: Id,
    to: Id,
    value: nat)
}

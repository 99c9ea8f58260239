/**
 * The entity store: one keyed map per entity kind, with `save` as a map
 * update (a later load sees an earlier save of the same event).
 */
module EntityStore {
  import opened Entities

  /** A snapshot of the whole store, the value the specifications work on. */
  datatype State = State(
    assets: map<Id, Asset>,
    creators: map<Id, Creator>,
    holders: map<Id, Holder>,
    purchases: map<PurchaseKey, Purchase>,
    stats: map<Id, GlobalStats>)

  const EmptyState := State(map[], map[], map[], map[], map[])

  /** The GlobalStats singleton, read as all zeros before the first event creates it. */
  function StatsOf(s: State): GlobalStats {
    if BytesZero in s.stats then s.stats[BytesZero] else NewGlobalStats(BytesZero)
  }

  /** Every row is stored under its own id, as `save` puts it. */
  ghost predicate WellKeyed(s: State) {
    && (forall k :: k in s.assets ==> s.assets[k].id == k)
    && (forall k :: k in s.creators ==> s.creators[k].id == k)
    && (forall k :: k in s.holders ==> s.holders[k].id == k)
    && (forall k :: k in s.purchases ==> s.purchases[k].id == k)
    && (forall k :: k in s.stats ==> s.stats[k].id == k)
  }

  class Store {
    var assets: map<Id, Asset>
    var creators: map<Id, Creator>
    var holders: map<Id, Holder>
    var purchases: map<PurchaseKey, Purchase>
    var stats: map<Id, GlobalStats>

    function Snapshot(): State
      reads this
    {
      State(assets, creators, holders, purchases, stats)
    }

    ghost predicate Valid()
      reads this
    {
      WellKeyed(Snapshot())
    }

    /** A cleared store, as before the first event. */
    constructor ()
      ensures Valid() && Snapshot() == EmptyState
    {
      assets, creators, holders, purchases, stats := map[], map[], map[], map[], map[];
    }

    method SaveAsset(a: Asset)
      requires Valid()
      modifies this
      ensures Valid()
      ensures Snapshot() == old(Snapshot()).(assets := old(assets)[a.id := a])
    {
      assets := assets[a.id := a];
    }

    method SaveCreator(c: Creator)
      requires Valid()
      modifies this
      ensures Valid()
      ensures Snapshot() == old(Snapshot()).(creators := old(creators)[c.id := c])
    {
      creators := creators[c.id := c];
    }

    method SaveHolder(h: Holder)
      requires Valid()
      modifies this
      ensures Valid()
      ensures Snapshot() == old(Snapshot()).(holders := old(holders)[h.id := h])
    {
      holders := holders[h.id := h];
    }

    method SavePurchase(p: Purchase)
      requires Valid()
      modifies this
      ensures Valid()
      ensures Snapshot() == old(Snapshot()).(purchases := old(purchases)[p.id := p])
    {
      purchases := purchases[p.id := p];
    }

    method SaveGlobalStats(g: GlobalStats)
      requires Valid()
      modifies this
      ensures Valid()
      ensures Snapshot() == old(Snapshot()).(stats := old(stats)[g.id := g])
    {
      stats := stats[g.id := g];
    }
  }
}

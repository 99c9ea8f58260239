/**
 * The load-or-create resolver: one lazy upsert per entity kind. A hit
 * returns the stored row and leaves the store alone; a miss stores and
 * returns the kind's zero-valued row.
 */
module EntityUtils {
  import opened Entities
  import opened EntityStore

  /** Load-or-create on one map: the stored value on a hit, `dflt` stored under `k` on a miss. */
  function Upsert<K, V>(m: map<K, V>, k: K, dflt: V): (r: map<K, V>)
    ensures k in r && r[k] == (if k in m then m[k] else dflt)
    ensures r.Keys == m.Keys + {k}
    ensures forall j :: j in m ==> r[j] == m[j]
  {
    if k in m then m else m[k := dflt]
  }

  lemma UpsertIdempotent<K, V>(m: map<K, V>, k: K, dflt: V)
    ensures Upsert(Upsert(m, k, dflt), k, dflt) == Upsert(m, k, dflt)
  {
  }

  /** Storing over a resolved key forgets whether the resolver created it. */
  lemma UpsertThenStore<K, V>(m: map<K, V>, k: K, dflt: V, v: V)
    ensures Upsert(m, k, dflt)[k := v] == m[k := v]
  {
  }

  // The row each resolver returns, as a function of the store before the call.

  function AssetRow(s: State, id: Id): Asset {
    if id in s.assets then s.assets[id] else NewAsset(id)
  }

  function CreatorRow(s: State, id: Id): Creator {
    if id in s.creators then s.creators[id] else NewCreator(id)
  }

  function HolderRow(s: State, id: Id): Holder {
    if id in s.holders then s.holders[id] else NewHolder(id)
  }

  /** Stated on the positions map, which `handleTransfer` updates twice in a row. */
  function PurchaseRow(ps: map<PurchaseKey, Purchase>, id: PurchaseKey): Purchase {
    if id in ps then ps[id] else NewPurchase(id)
  }

  // The store after each resolver: only the kind's own map, only at `id`.

  function WithAsset(s: State, id: Id): State {
    s.(assets := Upsert(s.assets, id, NewAsset(id)))
  }

  function WithCreator(s: State, id: Id): State {
    s.(creators := Upsert(s.creators, id, NewCreator(id)))
  }

  function WithHolder(s: State, id: Id): State {
    s.(holders := Upsert(s.holders, id, NewHolder(id)))
  }

  function WithPurchase(s: State, id: PurchaseKey): State {
    s.(purchases := Upsert(s.purchases, id, NewPurchase(id)))
  }

  function WithGlobalStats(s: State, id: Id): State {
    s.(stats := Upsert(s.stats, id, NewGlobalStats(id)))
  }

  /** A resolver on a hit changes nothing, whatever the kind. */
  lemma ResolveHitIsNoOp(s: State, id: Id, key: PurchaseKey)
    ensures id in s.assets ==> WithAsset(s, id) == s
    ensures id in s.creators ==> WithCreator(s, id) == s
    ensures id in s.holders ==> WithHolder(s, id) == s
    ensures key in s.purchases ==> WithPurchase(s, key) == s
    ensures id in s.stats ==> WithGlobalStats(s, id) == s
  {
  }

  /** Resolving twice in a row is resolving once. */
  lemma ResolveIdempotent(s: State, id: Id, key: PurchaseKey)
    ensures WithAsset(WithAsset(s, id), id) == WithAsset(s, id)
    ensures WithCreator(WithCreator(s, id), id) == WithCreator(s, id)
    ensures WithHolder(WithHolder(s, id), id) == WithHolder(s, id)
    ensures WithPurchase(WithPurchase(s, key), key) == WithPurchase(s, key)
    ensures WithGlobalStats(WithGlobalStats(s, id), id) == WithGlobalStats(s, id)
  {
  }

  method LoadOrCreateAsset(st: Store, id: Id) returns (a: Asset)
    requires st.Valid()
    modifies st
    ensures st.Valid()
    ensures st.Snapshot() == WithAsset(old(st.Snapshot()), id)
    ensures a == st.assets[id] == AssetRow(old(st.Snapshot()), id)
  {
    if id in st.assets {
      a := st.assets[id];
    } else {
      a := Asset(id, BytesZero, "", "", "", 0, 0, 0);
      st.SaveAsset(a);
    }
  }

  method LoadOrCreateCreator(st: Store, id: Id) returns (c: Creator)
    requires st.Valid()
    modifies st
    ensures st.Valid()
    ensures st.Snapshot() == WithCreator(old(st.Snapshot()), id)
    ensures c == st.creators[id] == CreatorRow(old(st.Snapshot()), id)
  {
    if id in st.creators {
      c := st.creators[id];
    } else {
      c := Creator(id, 0, 0, 0, 0);
      st.SaveCreator(c);
    }
  }

  method LoadOrCreateHolder(st: Store, id: Id) returns (h: Holder)
    requires st.Valid()
    modifies st
    ensures st.Valid()
    ensures st.Snapshot() == WithHolder(old(st.Snapshot()), id)
    ensures h == st.holders[id] == HolderRow(old(st.Snapshot()), id)
  {
    if id in st.holders {
      h := st.holders[id];
    } else {
      h := Holder(id, 0, 0, None);
      st.SaveHolder(h);
    }
  }

  method LoadOrCreatePurchase(st: Store, id: PurchaseKey) returns (p: Purchase)
    requires st.Valid()
    modifies st
    ensures st.Valid()
    ensures st.Snapshot() == WithPurchase(old(st.Snapshot()), id)
    ensures p == st.purchases[id] == PurchaseRow(old(st.purchases), id)
  {
    if id in st.purchases {
      p := st.purchases[id];
    } else {
      p := Purchase(id, BytesZero, BytesZero, 0, 0, 0);
      st.SavePurchase(p);
    }
  }

  method LoadOrCreateGlobalStats(st: Store, id: Id) returns (g: GlobalStats)
    requires st.Valid()
    modifies st
    ensures st.Valid()
    ensures st.Snapshot() == WithGlobalStats(old(st.Snapshot()), id)
    ensures g == st.stats[id]
    ensures id in old(st.stats) ==> g == old(st.stats)[id]
    ensures id !in old(st.stats) ==> g == NewGlobalStats(id)
  {
    if id in st.stats {
      g := st.stats[id];
    } else {
      g := GlobalStats(id, 0, 0, 0, 0, 0, 0, 0, 0);
      st.SaveGlobalStats(g);
    }
  }
}

/**
 * The handler of an asset contract's Transfer event: a position-to-position
 * move of `value` units, keyed by (holder, asset contract). Mints (from the
 * null account) and burns (to it) are skipped.
 */
module DXAsset {
  import opened Entities
  import opened EntityStore
  import opened EntityUtils
  import opened StatsUpdates

  /** Take `value` off the position under `k`, without any sufficiency check. */
  function Debit(ps: map<PurchaseKey, Purchase>, k: PurchaseKey, value: nat): (r: map<PurchaseKey, Purchase>)
    ensures k in r && r[k] == PurchaseRow(ps, k).(balance := PurchaseRow(ps, k).balance - value)
    ensures r.Keys == ps.Keys + {k}
    ensures forall j :: j in ps && j != k ==> r[j] == ps[j]
  {
    var p := PurchaseRow(ps, k);
    ps[k := p.(balance := p.balance - value)]
  }

  /** Add `value` to the position under `k` and point it at `holder` and `asset`. */
  function Credit(ps: map<PurchaseKey, Purchase>, k: PurchaseKey, holder: Id, asset: Id, value: nat)
    : (r: map<PurchaseKey, Purchase>)
    ensures k in r
    ensures r[k] == PurchaseRow(ps, k).(balance := PurchaseRow(ps, k).balance + value, holder := holder, asset := asset)
    ensures r.Keys == ps.Keys + {k}
    ensures forall j :: j in ps && j != k ==> r[j] == ps[j]
  {
    var p := PurchaseRow(ps, k);
    ps[k := p.(balance := p.balance + value, holder := holder, asset := asset)]
  }

  /** The sender's and the receiver's positions in the transferred asset. */
  function FromKey(e: TransferEvent): PurchaseKey {
    PurchaseKey(e.from, e.address)
  }

  function ToKey(e: TransferEvent): PurchaseKey {
    PurchaseKey(e.to, e.address)
  }

  /** A transfer that `handleTransfer` ignores: a mint or a burn. */
  predicate IsMintOrBurn(e: TransferEvent) {
    e.from == ZeroAddress || e.to == ZeroAddress
  }

  /**
   * Store after `handleTransfer(e)`. The `to` position is read after the
   * `from` position was saved, so a self-transfer nets to nothing.
   */
  function AfterTransfer(s: State, e: TransferEvent): (t: State)
    ensures IsMintOrBurn(e) ==> t == s
    // only the asset (if absent) and the two positions may change
    ensures t.creators == s.creators && t.holders == s.holders && t.stats == s.stats
    ensures !IsMintOrBurn(e) ==> t.assets == Upsert(s.assets, e.address, NewAsset(e.address))
    ensures var kf, kt := FromKey(e), ToKey(e);
      !IsMintOrBurn(e) ==>
        && t.purchases.Keys == s.purchases.Keys + {kf, kt}
        && (forall k :: k in s.purchases && k != kf && k != kt ==> t.purchases[k] == s.purchases[k])
        // distinct parties: the sender loses exactly `value` and nothing else on
        // its row moves; the receiver gains it and points at `to` and the asset
        && (e.from != e.to ==>
              && t.purchases[kf] == PurchaseRow(s.purchases, kf).(balance := PurchaseRow(s.purchases, kf).balance - e.value)
              && t.purchases[kt] == PurchaseRow(s.purchases, kt).(balance := PurchaseRow(s.purchases, kt).balance + e.value,
                                                                 holder := e.to, asset := e.address))
        // a self-transfer leaves the balance where it was and only sets the references
        && (e.from == e.to ==> t.purchases[kf] == PurchaseRow(s.purchases, kf).(holder := e.to, asset := e.address))
  {
    if IsMintOrBurn(e) then s
    else
      s.(assets := Upsert(s.assets, e.address, NewAsset(e.address)),
         purchases := Credit(Debit(s.purchases, FromKey(e), e.value), ToKey(e), e.to, e.address, e.value))
  }

  /** A transfer touches no Creator, Holder or statistics row, so the counters stay in step. */
  lemma TransferKeepsCounted(s: State, e: TransferEvent)
    requires Counted(s)
    ensures Counted(AfterTransfer(s, e))
  {
    var t := AfterTransfer(s, e);
    assert t.creators == s.creators && t.holders == s.holders && StatsOf(t) == StatsOf(s);
  }

  /** A transfer records no sale, so the revenue bound carries over. */
  lemma TransferKeepsRevenueWithinFee(s: State, e: TransferEvent, fee: nat)
    requires RevenueWithinFee(s, fee)
    ensures RevenueWithinFee(AfterTransfer(s, e), fee)
  {
    assert StatsOf(AfterTransfer(s, e)) == StatsOf(s);
  }

  /** Total balance held in positions on asset `a` (by the asset part of each key). */
  ghost function Supply(ps: map<PurchaseKey, Purchase>, a: Id): int
    decreases |ps.Keys|
  {
    if ps == map[] then 0
    else
      var k :| k in ps;
      Share(ps, k, a) + Supply(ps - {k}, a)
  }

  /** What the position under `k` contributes to the supply of `a`. */
  function Share(ps: map<PurchaseKey, Purchase>, k: PurchaseKey, a: Id): int {
    if k in ps && k.asset == a then ps[k].balance else 0
  }

  /** The supply can be split at any position, not only at the one `Supply` happens to pick. */
  lemma {:induction false} SupplyRemove(ps: map<PurchaseKey, Purchase>, k: PurchaseKey, a: Id)
    requires k in ps
    ensures Supply(ps, a) == Share(ps, k, a) + Supply(ps - {k}, a)
    decreases |ps.Keys|
  {
    var j :| j in ps && Supply(ps, a) == Share(ps, j, a) + Supply(ps - {j}, a);
    if j != k {
      var rest := ps - {j} - {k};
      assert (ps - {j}).Keys == ps.Keys - {j};
      assert |(ps - {j}).Keys| < |ps.Keys| by {
        assert j in ps.Keys;
      }
      SupplyRemove(ps - {j}, k, a);
      assert (ps - {k}).Keys == ps.Keys - {k};
      assert |(ps - {k}).Keys| < |ps.Keys| by {
        assert k in ps.Keys;
      }
      SupplyRemove(ps - {k}, j, a);
      assert ps - {j} - {k} == ps - {k} - {j};
      assert Share(ps - {j}, k, a) == Share(ps, k, a);
      assert Share(ps - {k}, j, a) == Share(ps, j, a);
    }
  }

  /** Overwriting one position changes the supply by the difference of its shares. */
  lemma SupplyUpdate(ps: map<PurchaseKey, Purchase>, k: PurchaseKey, p: Purchase, a: Id)
    ensures Supply(ps[k := p], a) == Supply(ps, a) - Share(ps, k, a) + Share(ps[k := p], k, a)
  {
    SupplyRemove(ps[k := p], k, a);
    assert ps[k := p] - {k} == ps - {k};
    if k in ps {
      SupplyRemove(ps, k, a);
    } else {
      assert ps - {k} == ps;
    }
  }

  /** Moving `value` between two positions in the same asset keeps every asset's supply. */
  lemma DebitCreditConserves(ps: map<PurchaseKey, Purchase>, kf: PurchaseKey, kt: PurchaseKey,
                             holder: Id, asset: Id, value: nat, a: Id)
    requires kf.asset == kt.asset
    ensures Supply(Credit(Debit(ps, kf, value), kt, holder, asset, value), a) == Supply(ps, a)
  {
    var pf := PurchaseRow(ps, kf);
    var debited := ps[kf := pf.(balance := pf.balance - value)];
    assert Debit(ps, kf, value) == debited;
    SupplyUpdate(ps, kf, pf.(balance := pf.balance - value), a);
    var pt := PurchaseRow(debited, kt);
    var credited := debited[kt := pt.(balance := pt.balance + value, holder := holder, asset := asset)];
    assert Credit(debited, kt, holder, asset, value) == credited;
    SupplyUpdate(debited, kt, pt.(balance := pt.balance + value, holder := holder, asset := asset), a);
    assert Share(credited, kt, a) - Share(debited, kt, a) == if kt.asset == a then value else 0;
    assert Share(debited, kf, a) - Share(ps, kf, a) == if kf.asset == a then -(value as int) else 0;
  }

  /**
   * Conservation of supply: for every asset, a transfer leaves the total
   * balance across positions unchanged (mint and burn are not recorded).
   */
  lemma TransferConservesSupply(s: State, e: TransferEvent, a: Id)
    ensures Supply(AfterTransfer(s, e).purchases, a) == Supply(s.purchases, a)
  {
    if !IsMintOrBurn(e) {
      DebitCreditConserves(s.purchases, FromKey(e), ToKey(e), e.to, e.address, e.value, a);
    }
  }

  lemma DebitIsStore(ps: map<PurchaseKey, Purchase>, k: PurchaseKey, value: nat, p: Purchase)
    requires p == PurchaseRow(ps, k).(balance := PurchaseRow(ps, k).balance - value)
    ensures Debit(ps, k, value) == ps[k := p]
  {
  }

  lemma CreditIsStore(ps: map<PurchaseKey, Purchase>, k: PurchaseKey, holder: Id, asset: Id, value: nat,
                      p: Purchase)
    requires p == PurchaseRow(ps, k).(balance := PurchaseRow(ps, k).balance + value, holder := holder, asset := asset)
    ensures Credit(ps, k, holder, asset, value) == ps[k := p]
  {
  }

  /** The resolve, modify and save steps of `handleTransfer`, composed, are `AfterTransfer`. */
  lemma TransferSteps(s0: State, s1: State, s2: State, s3: State, s4: State, s5: State,
                      e: TransferEvent, fromPurchase: Purchase, toPurchase: Purchase)
    requires !IsMintOrBurn(e)
    requires s1 == WithAsset(s0, e.address)
    requires s2 == WithPurchase(s1, PurchaseKey(e.from, e.address))
    requires var p := PurchaseRow(s1.purchases, PurchaseKey(e.from, e.address));
      fromPurchase == p.(balance := p.balance - e.value)
    requires s3 == s2.(purchases := s2.purchases[PurchaseKey(e.from, e.address) := fromPurchase])
    requires s4 == WithPurchase(s3, PurchaseKey(e.to, e.address))
    requires var p := PurchaseRow(s3.purchases, PurchaseKey(e.to, e.address));
      toPurchase == p.(balance := p.balance + e.value, holder := e.to, asset := e.address)
    requires s5 == s4.(purchases := s4.purchases[PurchaseKey(e.to, e.address) := toPurchase])
    ensures s5 == AfterTransfer(s0, e)
  {
    var kf, kt := FromKey(e), ToKey(e);
    assert PurchaseRow(s1.purchases, kf) == PurchaseRow(s0.purchases, kf);
    UpsertThenStore(s0.purchases, kf, NewPurchase(kf), fromPurchase);
    DebitIsStore(s0.purchases, kf, e.value, fromPurchase);
    UpsertThenStore(s3.purchases, kt, NewPurchase(kt), toPurchase);
    CreditIsStore(s3.purchases, kt, e.to, e.address, e.value, toPurchase);
    assert s5.assets == Upsert(s0.assets, e.address, NewAsset(e.address));
  }

  method HandleTransfer(st: Store, e: TransferEvent)
    requires st.Valid()
    modifies st
    ensures st.Valid()
    ensures st.Snapshot() == AfterTransfer(old(st.Snapshot()), e)
  {
    if e.from == ZeroAddress {
      return;
    }
    if e.to == ZeroAddress {
      return;
    }
    ghost var s0 := st.Snapshot();

    var asset := LoadOrCreateAsset(st, e.address);
    ghost var s1 := st.Snapshot();
    assert asset.id == e.address;

    var fromPurchaseId := PurchaseKey(e.from, asset.id);
    var fromPurchase := LoadOrCreatePurchase(st, fromPurchaseId);
    ghost var s2 := st.Snapshot();
    fromPurchase := fromPurchase.(balance := fromPurchase.balance - e.value);
    assert fromPurchase.id == fromPurchaseId;
    st.SavePurchase(fromPurchase);
    ghost var s3 := st.Snapshot();

    var toPurchaseId := PurchaseKey(e.to, asset.id);
    var toPurchase := LoadOrCreatePurchase(st, toPurchaseId);
    ghost var s4 := st.Snapshot();
    toPurchase := toPurchase.(balance := toPurchase.balance + e.value, holder := e.to, asset := asset.id);
    assert toPurchase.id == toPurchaseId;
    st.SavePurchase(toPurchase);
    ghost var s5 := st.Snapshot();

    TransferSteps(s0, s1, s2, s3, s4, s5, e, fromPurchase, toPurchase);
  }
}

/**
 * The global-statistics aggregator: `updateGlobalStats` (rolling totals)
 * and `updateUserStats` (the classification that counts an address once as
 * a user and once per role). Both handler files carry identical copies of
 * these two functions; they are modelled once here.
 */
module StatsUpdates {
  import opened Entities
  import opened EntityStore
  import opened EntityUtils

  /** Platform revenue of one sale: `cost * fee / 100`, truncated per event. */
  function Revenue(cost: nat, fee: nat): nat {
    cost * fee / 100
  }

  /** Truncating each sale on its own never yields more than truncating the sum. */
  lemma RevenueSubadditive(x: nat, y: nat, fee: nat)
    ensures Revenue(x, fee) + Revenue(y, fee) <= Revenue(x + y, fee)
  {
    var a, b := x * fee, y * fee;
    assert (x + y) * fee == a + b;
    var qa, qb := a / 100, b / 100;
    assert qa * 100 <= a && qb * 100 <= b;
    assert (qa + qb) * 100 <= a + b;
  }

  /** Store after `updateGlobalStats(assets, purchases, volume, revenue, worth)`. */
  function AfterGlobalStats(s: State, assetsInc: nat, purchasesInc: nat, volumeInc: nat,
                            revenueInc: nat, worthInc: nat): (t: State)
    // the five rolling totals grow by exactly their increments
    ensures StatsOf(t).totalAssets == StatsOf(s).totalAssets + assetsInc
    ensures StatsOf(t).totalPurchases == StatsOf(s).totalPurchases + purchasesInc
    ensures StatsOf(t).totalVolume == StatsOf(s).totalVolume + volumeInc
    ensures StatsOf(t).totalRevenue == StatsOf(s).totalRevenue + revenueInc
    ensures StatsOf(t).totalAssetWorth == StatsOf(s).totalAssetWorth + worthInc
    // the user counters are not its business
    ensures StatsOf(t).totalCreators == StatsOf(s).totalCreators
    ensures StatsOf(t).totalHolders == StatsOf(s).totalHolders
    ensures StatsOf(t).totalUsers == StatsOf(s).totalUsers
    // no row of any other kind changes
    ensures t.assets == s.assets && t.creators == s.creators && t.holders == s.holders
    ensures t.purchases == s.purchases
    // only the singleton row under `BYTES_ZERO` is written, and it keeps its id
    ensures t.stats.Keys == s.stats.Keys + {BytesZero}
    ensures forall k :: k in s.stats && k != BytesZero ==> t.stats[k] == s.stats[k]
    ensures t.stats[BytesZero].id == StatsOf(s).id
  {
    var g := StatsOf(s);
    s.(stats := s.stats[BytesZero := g.(totalAssets := g.totalAssets + assetsInc,
                                        totalPurchases := g.totalPurchases + purchasesInc,
                                        totalVolume := g.totalVolume + volumeInc,
                                        totalRevenue := g.totalRevenue + revenueInc,
                                        totalAssetWorth := g.totalAssetWorth + worthInc)])
  }

  /** An address seen in neither role before. */
  predicate IsNewUser(s: State, user: Id) {
    user !in s.creators && user !in s.holders
  }

  /** One more for `c`, none otherwise. */
  function Bump(c: bool): nat {
    if c then 1 else 0
  }

  /**
   * Store after `updateUserStats(user, isCreator)`: the user count grows
   * exactly when the address had no row of either role; the role asked for
   * gets its row and its count on its first occurrence; the other role is
   * untouched.
   */
  function AfterUserStats(s: State, user: Id, isCreator: bool): (t: State)
    ensures StatsOf(t).totalUsers
         == StatsOf(s).totalUsers + (if user !in s.creators && user !in s.holders then 1 else 0)
    ensures StatsOf(t).totalCreators
         == StatsOf(s).totalCreators + (if isCreator && user !in s.creators then 1 else 0)
    ensures StatsOf(t).totalHolders
         == StatsOf(s).totalHolders + (if !isCreator && user !in s.holders then 1 else 0)
    // afterwards the address holds the role it was classified in, and nothing else has a new row
    ensures t.creators.Keys == if isCreator then s.creators.Keys + {user} else s.creators.Keys
    ensures t.holders.Keys == if isCreator then s.holders.Keys else s.holders.Keys + {user}
    // the other role's rows are untouched
    ensures isCreator ==> t.holders == s.holders
    ensures !isCreator ==> t.creators == s.creators
    // an existing row of either role is kept as it is; a new one is zero-valued
    ensures forall k :: k in s.creators ==> t.creators[k] == s.creators[k]
    ensures forall k :: k in s.holders ==> t.holders[k] == s.holders[k]
    ensures isCreator ==> t.creators[user] == CreatorRow(s, user)
    ensures !isCreator ==> t.holders[user] == HolderRow(s, user)
    // the rolling totals are untouched
    ensures var g, h := StatsOf(s), StatsOf(t);
      && h.totalAssets == g.totalAssets && h.totalPurchases == g.totalPurchases
      && h.totalVolume == g.totalVolume && h.totalRevenue == g.totalRevenue
      && h.totalAssetWorth == g.totalAssetWorth
    ensures t.assets == s.assets && t.purchases == s.purchases
    // only the singleton row under `BYTES_ZERO` is written, and it keeps its id
    ensures t.stats.Keys == s.stats.Keys + {BytesZero}
    ensures forall k :: k in s.stats && k != BytesZero ==> t.stats[k] == s.stats[k]
    ensures t.stats[BytesZero].id == StatsOf(s).id
  {
    var g := StatsOf(s);
    var newCreator := isCreator && user !in s.creators;
    var newHolder := !isCreator && user !in s.holders;
    s.(creators := if isCreator then Upsert(s.creators, user, NewCreator(user)) else s.creators,
       holders := if isCreator then s.holders else Upsert(s.holders, user, NewHolder(user)),
       stats := s.stats[BytesZero := g.(totalUsers := g.totalUsers + Bump(IsNewUser(s, user)),
                                        totalCreators := g.totalCreators + Bump(newCreator),
                                        totalHolders := g.totalHolders + Bump(newHolder))])
  }

  /**
   * The counters agree with the rows: one creator per Creator row, one
   * holder per Holder row, one user per address holding either role.
   */
  ghost predicate Counted(s: State) {
    && StatsOf(s).totalCreators == |s.creators.Keys|
    && StatsOf(s).totalHolders == |s.holders.Keys|
    && StatsOf(s).totalUsers == |s.creators.Keys + s.holders.Keys|
  }

  /** The revenue total stays within the fee share of the volume total. */
  ghost predicate RevenueWithinFee(s: State, fee: nat) {
    StatsOf(s).totalRevenue <= Revenue(StatsOf(s).totalVolume, fee)
  }

  /**
   * Adding `u` to the set `a` of one role: `a` grows by one exactly when `u`
   * was not in it, the union with the other role's set `b` exactly when `u`
   * was in neither.
   */
  lemma {:induction false} AddToRole(a: set<Id>, b: set<Id>, u: Id)
    ensures |a + {u}| == |a| + Bump(u !in a)
    ensures |(a + {u}) + b| == |a + b| + Bump(u !in a && u !in b)
  {
    if u in a {
      assert a + {u} == a;
    } else if u in b {
      assert (a + {u}) + b == a + b;
    } else {
      assert (a + {u}) + b == (a + b) + {u};
    }
  }

  /** Either role assigned to `u`, stated on the two role sets. */
  lemma {:induction false} RoleSetsGrow(a: set<Id>, b: set<Id>, u: Id, isCreator: bool)
    ensures var a2 := if isCreator then a + {u} else a;
            var b2 := if isCreator then b else b + {u};
            && |a2| == |a| + Bump(isCreator && u !in a)
            && |b2| == |b| + Bump(!isCreator && u !in b)
            && |a2 + b2| == |a + b| + Bump(u !in a && u !in b)
  {
    if isCreator {
      AddToRole(a, b, u);
    } else {
      AddToRole(b, a, u);
      assert a + (b + {u}) == (b + {u}) + a;
      assert a + b == b + a;
    }
  }

  lemma UserStatsKeepCounted(s: State, user: Id, isCreator: bool)
    requires Counted(s)
    ensures Counted(AfterUserStats(s, user, isCreator))
  {
    RoleSetsGrow(s.creators.Keys, s.holders.Keys, user, isCreator);
  }

  /** Adding volume with its truncated fee share keeps the revenue bound. */
  lemma GlobalStatsKeepRevenueWithinFee(s: State, assetsInc: nat, purchasesInc: nat, cost: nat,
                                        worthInc: nat, fee: nat)
    requires RevenueWithinFee(s, fee)
    ensures RevenueWithinFee(AfterGlobalStats(s, assetsInc, purchasesInc, cost, Revenue(cost, fee), worthInc), fee)
  {
    RevenueSubadditive(StatsOf(s).totalVolume, cost, fee);
  }

  method UpdateGlobalStats(st: Store, assetsInc: nat, purchasesInc: nat, volumeInc: nat,
                           revenueInc: nat, worthInc: nat)
    requires st.Valid()
    modifies st
    ensures st.Valid()
    ensures st.Snapshot() == AfterGlobalStats(old(st.Snapshot()), assetsInc, purchasesInc, volumeInc, revenueInc, worthInc)
  {
    var stats := LoadOrCreateGlobalStats(st, BytesZero);
    stats := stats.(totalAssets := stats.totalAssets + assetsInc);
    stats := stats.(totalPurchases := stats.totalPurchases + purchasesInc);
    stats := stats.(totalVolume := stats.totalVolume + volumeInc);
    stats := stats.(totalRevenue := stats.totalRevenue + revenueInc);
    stats := stats.(totalAssetWorth := stats.totalAssetWorth + worthInc);
    UpsertThenStore(old(st.stats), BytesZero, NewGlobalStats(BytesZero), stats);
    st.SaveGlobalStats(stats);
  }

  /** The steps `updateUserStats` takes, composed, are the closed form above. */
  lemma UserStatsSteps(s0: State, s1: State, s2: State, s3: State, user: Id, isCreator: bool,
                       stats: GlobalStats)
    requires s1 == WithGlobalStats(s0, BytesZero)
    requires s2 == if isCreator && user !in s0.creators then WithCreator(s1, user) else s1
    requires s3 == if !isCreator && user !in s0.holders then WithHolder(s2, user) else s2
    requires var g := StatsOf(s0);
      stats == g.(totalUsers := g.totalUsers + Bump(IsNewUser(s0, user)),
                  totalCreators := g.totalCreators + Bump(isCreator && user !in s0.creators),
                  totalHolders := g.totalHolders + Bump(!isCreator && user !in s0.holders))
    ensures s3.(stats := s3.stats[BytesZero := stats]) == AfterUserStats(s0, user, isCreator)
  {
    UpsertThenStore(s0.stats, BytesZero, NewGlobalStats(BytesZero), stats);
  }

  method UpdateUserStats(st: Store, user: Id, isCreator: bool)
    requires st.Valid()
    modifies st
    ensures st.Valid()
    ensures st.Snapshot() == AfterUserStats(old(st.Snapshot()), user, isCreator)
  {
    ghost var s0 := st.Snapshot();
    var creatorFound := user in st.creators;
    var holderFound := user in st.holders;
    var stats := LoadOrCreateGlobalStats(st, BytesZero);
    ghost var s1 := st.Snapshot();
    ghost var g := StatsOf(s0);
    assert stats == g;

    if !creatorFound && !holderFound {
      stats := stats.(totalUsers := stats.totalUsers + 1);
    }
    assert stats == g.(totalUsers := g.totalUsers + Bump(IsNewUser(s0, user)));

    if isCreator && !creatorFound {
      var creator := LoadOrCreateCreator(st, user);
      stats := stats.(totalCreators := stats.totalCreators + 1);
    }
    ghost var s2 := st.Snapshot();
    assert stats == g.(totalUsers := g.totalUsers + Bump(IsNewUser(s0, user)),
                       totalCreators := g.totalCreators + Bump(isCreator && !creatorFound));

    if !isCreator && !holderFound {
      var holder := LoadOrCreateHolder(st, user);
      stats := stats.(totalHolders := stats.totalHolders + 1);
    }
    ghost var s3 := st.Snapshot();
    assert stats.id == BytesZero;
    UserStatsSteps(s0, s1, s2, s3, user, isCreator, stats);
    st.SaveGlobalStats(stats);
  }
}

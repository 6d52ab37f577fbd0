/** What one event of a pool's rewards does to what is due: it never grows by more than what may be. Each index
    update adds no more than what it releases and its excess, a settlement, a call or a payment adds nothing. */
module RewardSteps {
  import opened FixedPoint
  import opened Totals
  import opened Outcomes
  import opened Ledger
  import ExchangeRate
  import opened Borrowers
  import opened Rewards
  import opened BorrowerRewards
  import opened Distributor
  import opened RewardRuns

  // ---------- one market at a time ----------

  /// Only market v differs between the two.
  ghost predicate OnlyMarket(w: World, w': World, v: MarketId) {
    && v in w.pool && w'.pool.Keys == w.pool.Keys && w'.now == w.now
    && forall x | x != v :: SameMarket(w, w', x)
  }

  ghost predicate SameMarket(w: World, w': World, x: MarketId) {
    && (x in w.pool ==> x in w'.pool && w'.pool[x] == w.pool[x] && Get(w'.accruals, x) == Get(w.accruals, x))
    && SameSide(w.books.supply, w'.books.supply, x) && SameSide(w.books.borrow, w'.books.borrow, x)
  }

  ghost predicate SameSide(side: Side, side': Side, x: MarketId) {
    && (x in side.states <==> x in side'.states) && side'.State(x) == side.State(x)
    && forall u :: Get(side'.indices, (x, u)) == Get(side.indices, (x, u))
  }

  lemma SameUnsettled(shares: map<User, real>, side: Side, side': Side, x: MarketId)
    requires SameSide(side, side', x)
    ensures UnsettledWorth(shares, side', x) == UnsettledWorth(shares, side, x)
  {
    forall u
      ensures Since(side', x, u) == Since(side, x, u)
    {
    }
  }

  lemma SameMarketInv(w: World, w': World, x: MarketId)
    requires MarketHolds(w, x) && SameMarket(w, w', x) && w'.now == w.now && (x in w'.pool ==> x in w.pool)
    ensures MarketHolds(w', x)
  {
    if x in w.pool {
      SameSideInv(w.books.supply, w'.books.supply, x, w.now);
      SameSideInv(w.books.borrow, w'.books.borrow, x, w.now);
    }
  }

  lemma SameSideInv(side: Side, side': Side, x: MarketId, now: nat)
    requires SideInv(side, x, now) && SameSide(side, side', x)
    ensures SideInv(side', x, now)
  {
    forall u
      ensures IndexInRange(side', x, u)
    {
      assert IndexInRange(side, x, u);
    }
  }

  /// The change of one market is the change of all.
  lemma OneMarketChanges(w: World, w': World, v: MarketId)
    requires Holds(w) && OnlyMarket(w, w', v) && MarketHolds(w', v)
    ensures Holds(w')
    ensures Total(OfMarkets(w')) - Total(OfMarkets(w)) == OfMarket(w', v) - OfMarket(w, v)
  {
    forall x
      ensures MarketHolds(w', x)
    {
      assert MarketHolds(w, x);
      if x != v {
        SameMarketInv(w, w', x);
      }
    }
    TotalWithout(OfMarkets(w), v);
    TotalWithout(OfMarkets(w'), v);
    SameRest(w, w', v);
  }

  lemma SameRest(w: World, w': World, v: MarketId)
    requires OnlyMarket(w, w', v)
    ensures OfMarkets(w') - {v} == OfMarkets(w) - {v}
  {
    var a, b := OfMarkets(w') - {v}, OfMarkets(w) - {v};
    assert a.Keys == b.Keys;
    forall x | x in a.Keys
      ensures a[x] == b[x]
    {
      assert SameMarket(w, w', x);
      SameUnsettled(SharesOf(w.pool[x], Suppliers), w.books.supply, w'.books.supply, x);
      SameUnsettled(SharesOf(w.pool[x], Borrowing), w.books.borrow, w'.books.borrow, x);
    }
  }

  // ---------- shares ----------

  lemma UnitsWithinShares(m: LiveMarket, k: Kind, u: User)
    requires ExchangeRate.Inv(m)
    ensures 0.0 <= UnitsOf(m, k, u) as real <= At(SharesOf(m, k), u)
  {
    if k == Borrowing {
      UnitsBound(m, u);
      ScaledEntry(m, u);
    }
  }

  lemma ScaledEntry(m: LiveMarket, u: User)
    ensures At(Shares(m), u) == Share(m, u)
  {
    TimesZero(ONE);
  }

  lemma SharesWithinTotal(m: LiveMarket, k: Kind, accruals: nat)
    requires ExchangeRate.Inv(m) && DebtWithin(m, accruals)
    ensures Total(SharesOf(m, k)) <= TotalOf(m, k) as real + Over(k, accruals) as real
  {
    if k == Borrowing {
      SharesTotal(m, accruals);
    }
  }

  lemma UnsettledEntry(shares: map<User, real>, side: Side, v: MarketId, u: User)
    ensures At(UnsettledWorth(shares, side, v), u) == Times(At(shares, u), Since(side, v, u) as real)
  {
    TimesZero(Since(side, v, u) as real);
  }

  // ---------- updating ----------

  lemma UpdatedSide(side: Side, v: MarketId, now: nat, total: nat)
    requires SideInv(side, v, now)
    ensures side.Updated(v, now, total).Done?
    ensures var side', growth := side.Updated(v, now, total).value, IndexGrowthOf(side, v, now, total);
      && side' == side.(states := side'.states) && side'.states == side.states[v := side'.State(v)]
      && side'.State(v) == side.State(v).(index := side.State(v).index + growth, block := side'.State(v).block)
      && side'.State(v).block == RewardedUntil(side.State(v), now)
  {
  }

  lemma UpdatedSince(side: Side, side': Side, v: MarketId, growth: nat, u: User)
    requires IndexInRange(side, v, u) && INITIAL_INDEX <= side.State(v).index
    requires side'.indices == side.indices && side'.State(v).index == side.State(v).index + growth
    ensures IndexInRange(side', v, u) && Since(side', v, u) == Since(side, v, u) + growth
  {
  }

  lemma UpdatedSideInv(side: Side, v: MarketId, now: nat, total: nat)
    requires SideInv(side, v, now)
    ensures side.Updated(v, now, total).Done? && SideInv(side.Updated(v, now, total).value, v, now)
  {
    UpdatedSide(side, v, now, total);
    var side' := side.Updated(v, now, total).value;
    forall u
      ensures IndexInRange(side', v, u)
    {
      assert IndexInRange(side, v, u);
      UpdatedSince(side, side', v, IndexGrowthOf(side, v, now, total), u);
    }
  }

  ghost predicate GrownBy(side: Side, side': Side, v: MarketId, growth: nat) {
    forall u :: Since(side', v, u) == Since(side, v, u) + growth
  }

  lemma GrownEntry(share: real, side: Side, side': Side, v: MarketId, growth: nat, u: User)
    requires GrownBy(side, side', v, growth)
    ensures Times(share, Since(side', v, u) as real) == Times(share, Since(side, v, u) as real) + Times(growth as real, share)
  {
    TimesPlus(share, Since(side, v, u) as real, growth as real);
    TimesSwap(share, growth as real);
  }

  lemma UnsettledPlus(shares: map<User, real>, side: Side, side': Side, v: MarketId, growth: nat)
    requires GrownBy(side, side', v, growth)
    ensures UnsettledWorth(shares, side', v) == Plus(UnsettledWorth(shares, side, v), Scaled(shares, growth as real))
  {
    var a, b := UnsettledWorth(shares, side', v), Plus(UnsettledWorth(shares, side, v), Scaled(shares, growth as real));
    assert a.Keys == b.Keys;
    forall u | u in a.Keys
      ensures a[u] == b[u]
    {
      GrownEntry(shares[u], side, side', v, growth, u);
    }
  }

  /// All shares grow together.
  lemma UnsettledGrows(shares: map<User, real>, side: Side, side': Side, v: MarketId, growth: nat)
    requires GrownBy(side, side', v, growth)
    ensures Total(UnsettledWorth(shares, side', v)) == Total(UnsettledWorth(shares, side, v)) + Times(growth as real, Total(shares))
  {
    UnsettledPlus(shares, side, side', v, growth);
    TotalPlus(UnsettledWorth(shares, side, v), Scaled(shares, growth as real));
    TotalScaled(shares, growth as real);
  }

  lemma GrowthCovered(blocks: nat, speed: nat, total: nat, growth: nat, shares: real, over: nat)
    requires growth * total <= blocks * speed * DOUBLE_SCALE && shares <= total as real + over as real
    ensures Times(growth as real, shares) <= Times(DOUBLE, (blocks * speed) as real) + (over * growth) as real
  {
    TimesMonotone(growth as real, shares, total as real + over as real);
    TimesPlus(growth as real, total as real, over as real);
    ProductReal(growth, total);
    ProductReal(growth, over);
    ProductReal(DOUBLE_SCALE, blocks * speed);
    assert growth * over == over * growth;
    assert DOUBLE_SCALE * (blocks * speed) == blocks * speed * DOUBLE_SCALE;
  }

  lemma GrowthOfFits(side: Side, v: MarketId, now: nat, total: nat)
    ensures IndexGrowthOf(side, v, now, total) * total <= PendingOf(side, v, now) * Get(side.speeds, v) * DOUBLE_SCALE
  {
    GrowthFits(PendingOf(side, v, now), Get(side.speeds, v), total);
  }

  lemma UpdateOnlyMarket(w: World, k: Kind, v: MarketId)
    requires v in w.pool && SideInv(SideOf(w.books, k), v, w.now)
    ensures OnlyMarket(w, Update(w, k, v), v)
  {
    UpdatedSide(SideOf(w.books, k), v, w.now, TotalOf(w.pool[v], k));
  }

  lemma UpdateOutstanding(w: World, k: Kind, v: MarketId)
    requires v in w.pool && MarketHolds(w, v)
    ensures var w' := Update(w, k, v);
      MarketHolds(w', v) && OfMarket(w', v) - OfMarket(w, v) <= Ceiling(w') - Ceiling(w)
  {
    var side, m := SideOf(w.books, k), w.pool[v];
    var total, w' := TotalOf(m, k), Update(w, k, v);
    var growth := IndexGrowthOf(side, v, w.now, total);
    UpdatedSide(side, v, w.now, total);
    UpdatedSideInv(side, v, w.now, total);
    forall u
      ensures Since(SideOf(w'.books, k), v, u) == Since(side, v, u) + growth
    {
      assert IndexInRange(side, v, u);
      UpdatedSince(side, SideOf(w'.books, k), v, growth, u);
    }
    UnsettledGrows(SharesOf(m, k), side, SideOf(w'.books, k), v, growth);
    SharesWithinTotal(m, k, Get(w.accruals, v));
    GrowthOfFits(side, v, w.now, total);
    GrowthCovered(PendingOf(side, v, w.now), Get(side.speeds, v), total, growth, Total(SharesOf(m, k)), Over(k, Get(w.accruals, v)));
    TimesPlus(DOUBLE, w.released as real, (PendingOf(side, v, w.now) * Get(side.speeds, v)) as real);
  }

  lemma MarketHoldsAt(w: World, v: MarketId)
    requires Holds(w) && v in w.pool
    ensures MarketHolds(w, v) && SideInv(w.books.supply, v, w.now) && SideInv(w.books.borrow, v, w.now)
  {
    assert MarketHolds(w, v);
  }

  /// What is due follows the one market that changes, and what is accrued.
  lemma DueChanges(w: World, w': World, v: MarketId)
    requires Holds(w) && OnlyMarket(w, w', v) && MarketHolds(w', v)
    ensures Holds(w')
    ensures Due(w') - Due(w) == Times(DOUBLE, Received(w')) - Times(DOUBLE, Received(w)) + (OfMarket(w', v) - OfMarket(w, v))
  {
    OneMarketChanges(w, w', v);
  }

  lemma UpdateKeeps(w: World, k: Kind, v: MarketId)
    requires Holds(w) && v in w.pool
    ensures Keeps(w, Update(w, k, v))
  {
    MarketHoldsAt(w, v);
    var w' := Update(w, k, v);
    UpdateOnlyMarket(w, k, v);
    UpdateOutstanding(w, k, v);
    DueChanges(w, w', v);
    assert Received(w') == Received(w);
  }

  // ---------- settling ----------

  lemma SettledSide(side: Side, v: MarketId, u: User, now: nat)
    requires SideInv(side, v, now)
    ensures SideInv(side.Settled(v, u), v, now)
    ensures SettledTo(side, side.Settled(v, u), v, u)
    ensures forall x | x != v :: SameSide(side, side.Settled(v, u), x)
  {
    var side' := side.Settled(v, u);
    forall x
      ensures IndexInRange(side', v, x)
      ensures Since(side', v, x) == if x == u then 0 else Since(side, v, x)
    {
      assert IndexInRange(side, v, x);
    }
  }

  lemma SettleDone(w: World, k: Kind, v: MarketId, u: User)
    requires v in w.pool && MarketHolds(w, v)
    ensures var w', side := Settle(w, k, v, u), SideOf(w.books, k);
      var delta := Accrual(UnitsOf(w.pool[v], k, u), Since(side, v, u));
      w' == w.(books := WithSide(w.books, k, side.Settled(v, u)).(accrued := w.books.accrued[u := Get(w.books.accrued, u) + delta]))
  {
    assert IndexInRange(SideOf(w.books, k), v, u);
  }

  ghost predicate SettledTo(side: Side, side': Side, v: MarketId, u: User) {
    forall x :: Since(side', v, x) == if x == u then 0 else Since(side, v, x)
  }

  lemma RestUnsettled(shares: map<User, real>, side: Side, side': Side, v: MarketId, u: User)
    requires SettledTo(side, side', v, u)
    ensures UnsettledWorth(shares, side', v) - {u} == UnsettledWorth(shares, side, v) - {u}
  {
    var a, b := UnsettledWorth(shares, side', v) - {u}, UnsettledWorth(shares, side, v) - {u};
    assert a.Keys == b.Keys;
    forall x | x in a.Keys
      ensures a[x] == b[x]
    {
    }
  }

  lemma SettledEntry(shares: map<User, real>, side: Side, side': Side, v: MarketId, u: User)
    requires SettledTo(side, side', v, u)
    ensures At(UnsettledWorth(shares, side', v), u) == 0.0
  {
    UnsettledEntry(shares, side', v, u);
    TimesZero(At(shares, u));
  }

  /// A settled user's worth goes, everybody else's stays.
  lemma UnsettledFalls(shares: map<User, real>, side: Side, side': Side, v: MarketId, u: User)
    requires SettledTo(side, side', v, u)
    ensures Total(UnsettledWorth(shares, side', v))
         == Total(UnsettledWorth(shares, side, v)) - Times(At(shares, u), Since(side, v, u) as real)
  {
    TotalWithout(UnsettledWorth(shares, side, v), u);
    TotalWithout(UnsettledWorth(shares, side', v), u);
    UnsettledEntry(shares, side, v, u);
    SettledEntry(shares, side, side', v, u);
    RestUnsettled(shares, side, side', v, u);
  }

  lemma AccruedWithin(units: nat, share: real, since: nat)
    requires units as real <= share
    ensures Times(DOUBLE, Accrual(units, since) as real) <= Times(share, since as real)
  {
    var delta := Accrual(units, since);
    DivNonNegative(units * since, DOUBLE_SCALE);
    DivBounds(units * since, DOUBLE_SCALE, delta);
    ProductReal(DOUBLE_SCALE, delta);
    ProductReal(units, since);
    TimesMonotone(since as real, units as real, share);
    TimesSwap(since as real, units as real);
    TimesSwap(since as real, share);
    assert DOUBLE_SCALE * delta == delta * DOUBLE_SCALE;
  }

  lemma SettleOnlyMarket(w: World, k: Kind, v: MarketId, u: User)
    requires v in w.pool && MarketHolds(w, v)
    ensures OnlyMarket(w, Settle(w, k, v, u), v) && MarketHolds(Settle(w, k, v, u), v)
  {
    SettleDone(w, k, v, u);
    SettledSide(SideOf(w.books, k), v, u, w.now);
  }

  lemma SettleOutstanding(w: World, k: Kind, v: MarketId, u: User)
    requires v in w.pool && MarketHolds(w, v)
    ensures OfMarket(Settle(w, k, v, u), v)
         == OfMarket(w, v) - Times(At(SharesOf(w.pool[v], k), u), Since(SideOf(w.books, k), v, u) as real)
  {
    var side := SideOf(w.books, k);
    SettleDone(w, k, v, u);
    SettledSide(side, v, u, w.now);
    UnsettledFalls(SharesOf(w.pool[v], k), side, side.Settled(v, u), v, u);
  }

  lemma ReceivedMore(w: World, w': World, u: User, delta: nat)
    requires w'.books.accrued == w.books.accrued[u := Get(w.books.accrued, u) + delta] && w'.paid == w.paid
    ensures Times(DOUBLE, Received(w')) == Times(DOUBLE, Received(w)) + Times(DOUBLE, delta as real)
  {
    NatTotalUpdate(w.books.accrued, u, Get(w.books.accrued, u) + delta);
    TimesPlus(DOUBLE, Received(w), delta as real);
  }

  lemma SettleReceived(w: World, k: Kind, v: MarketId, u: User)
    requires v in w.pool && MarketHolds(w, v)
    ensures Times(DOUBLE, Received(Settle(w, k, v, u)))
         <= Times(DOUBLE, Received(w)) + Times(At(SharesOf(w.pool[v], k), u), Since(SideOf(w.books, k), v, u) as real)
  {
    SettleAccrued(w, k, v, u);
    AccruedWithinShares(w.pool[v], k, u, Since(SideOf(w.books, k), v, u));
    ReceivedMore(w, Settle(w, k, v, u), u, Accrual(UnitsOf(w.pool[v], k, u), Since(SideOf(w.books, k), v, u)));
  }

  lemma AccruedWithinShares(m: LiveMarket, k: Kind, u: User, since: nat)
    requires ExchangeRate.Inv(m)
    ensures Times(DOUBLE, Accrual(UnitsOf(m, k, u), since) as real) <= Times(At(SharesOf(m, k), u), since as real)
  {
    UnitsWithinShares(m, k, u);
    AccruedWithin(UnitsOf(m, k, u), At(SharesOf(m, k), u), since);
  }

  lemma SettleAccrued(w: World, k: Kind, v: MarketId, u: User)
    requires v in w.pool && MarketHolds(w, v)
    ensures Settle(w, k, v, u).books.accrued
         == w.books.accrued[u := Get(w.books.accrued, u) + Accrual(UnitsOf(w.pool[v], k, u), Since(SideOf(w.books, k), v, u))]
  {
    SettleDone(w, k, v, u);
  }

  lemma SettleKeeps(w: World, k: Kind, v: MarketId, u: User)
    requires Holds(w) && v in w.pool
    ensures Keeps(w, Settle(w, k, v, u))
  {
    MarketHoldsAt(w, v);
    SettleOnlyMarket(w, k, v, u);
    SettleOutstanding(w, k, v, u);
    SettleReceived(w, k, v, u);
    DueChanges(w, Settle(w, k, v, u), v);
  }

  lemma {:induction false} SettleEachKeeps(w: World, k: Kind, v: MarketId, us: seq<User>)
    requires Holds(w) && v in w.pool
    ensures Keeps(w, SettleEach(w, k, v, us))
    decreases |us|
  {
    if |us| > 0 {
      var w1 := Settle(w, k, v, us[0]);
      SettleKeeps(w, k, v, us[0]);
      SettleEachKeeps(w1, k, v, us[1..]);
      KeepsBoth(w, w1, SettleEach(w1, k, v, us[1..]));
    }
  }

  lemma SettleBothKeeps(w: World, v: MarketId, u: User)
    requires Holds(w) && v in w.pool
    ensures Keeps(w, SettleBoth(w, v, u))
  {
    var w1 := Update(w, Borrowing, v);
    var w2 := Settle(w1, Borrowing, v, u);
    var w3 := Update(w2, Suppliers, v);
    UpdateKeeps(w, Borrowing, v);
    SettleKeeps(w1, Borrowing, v, u);
    UpdateKeeps(w2, Suppliers, v);
    SettleKeeps(w3, Suppliers, v, u);
    KeepsBoth(w, w1, w2);
    KeepsBoth(w, w2, w3);
    KeepsBoth(w, w3, SettleBoth(w, v, u));
  }

  lemma {:induction false} SettleAllKeeps(w: World, vs: seq<MarketId>, u: User)
    requires Holds(w) && forall v :: v in vs ==> v in w.pool
    ensures Keeps(w, SettleAll(w, vs, u))
    decreases |vs|
  {
    if |vs| > 0 {
      var w1 := SettleBoth(w, vs[0], u);
      SettleBothKeeps(w, vs[0], u);
      SettleAllKeeps(w1, vs[1..], u);
      KeepsBoth(w, w1, SettleAll(w1, vs[1..], u));
    }
  }

  // ---------- calls of a market ----------

  lemma SettleSince(w: World, k: Kind, v: MarketId, u: User, x: User)
    requires v in w.pool && MarketHolds(w, v)
    ensures Since(SideOf(Settle(w, k, v, u).books, k), v, x) == if x == u then 0 else Since(SideOf(w.books, k), v, x)
  {
    SettleDone(w, k, v, u);
    SettledSide(SideOf(w.books, k), v, u, w.now);
  }

  lemma {:induction false} StaysUpTo(w: World, k: Kind, v: MarketId, us: seq<User>, u: User)
    requires Holds(w) && v in w.pool && (u in us || Since(SideOf(w.books, k), v, u) == 0)
    ensures Since(SideOf(SettleEach(w, k, v, us).books, k), v, u) == 0
    decreases |us|
  {
    if |us| > 0 {
      MarketHoldsAt(w, v);
      SettleKeeps(w, k, v, us[0]);
      SettleSince(w, k, v, us[0], u);
      StaysUpTo(Settle(w, k, v, us[0]), k, v, us[1..], u);
    }
  }

  lemma HookKeeps(w: World, v: MarketId, action: Action)
    requires Holds(w) && v in w.pool
    ensures Keeps(w, AfterHooks(w, v, action))
    ensures forall u | u in SettledFor(action) :: Since(SideOf(AfterHooks(w, v, action).books, KindFor(action)), v, u) == 0
  {
    if SettledFor(action) != [] {
      var k := KindFor(action);
      var w1 := Update(w, k, v);
      UpdateKeeps(w, k, v);
      SettleEachKeeps(w1, k, v, SettledFor(action));
      KeepsBoth(w, w1, SettleEach(w1, k, v, SettledFor(action)));
      forall u | u in SettledFor(action)
        ensures Since(SideOf(SettleEach(w1, k, v, SettledFor(action)).books, k), v, u) == 0
      {
        StaysUpTo(w1, k, v, SettledFor(action), u);
      }
    }
  }

  lemma TokensAfterCall(m: LiveMarket, step: Step, u: User)
    requires Apply(m, step).Done? && (KindFor(step.action) == Borrowing || u !in SettledFor(step.action))
    ensures Get(MarketAfter(m, step).accountTokens, u) == Get(m.accountTokens, u)
  {
    if step.action.Accrue? {
      AccrualKeepsTokens(step.settings, m, step.now, step.action.rate);
    }
  }

  lemma AccrualKeepsTokens(s: Settings, m: Market, now: nat, rate: nat)
    ensures AccrueInterest(s, m, now, rate).Done? ==> AccrueInterest(s, m, now, rate).value.accountTokens == m.accountTokens
  {
  }

  /// A call changes a share only of whom it settles first, or takes it.
  lemma ShareAfterCall(m: LiveMarket, step: Step, k: Kind, u: User)
    requires Apply(m, step).Done?
    ensures var before, after := At(SharesOf(m, k), u), At(SharesOf(MarketAfter(m, step), k), u);
      after == before || after == 0.0 || (k == KindFor(step.action) && u in SettledFor(step.action))
  {
    if k == Suppliers {
      if KindFor(step.action) == Borrowing || u !in SettledFor(step.action) {
        TokensAfterCall(m, step, u);
      }
    } else {
      ScaledEntry(m, u);
      ScaledEntry(MarketAfter(m, step), u);
      if (step.action.Borrow? || step.action.Repay? || step.action.Heal?) && u == step.action.borrower {
        if step.action.Heal? {
          HealedShare(m, step);
        }
      } else {
        SharesAfterCall(m, step, u);
      }
    }
  }

  /// The new market in the books as the hooks left them.
  function WithLedger(w: World, v: MarketId, m: LiveMarket, accruals: nat): World {
    w.(pool := w.pool[v := m], accruals := w.accruals[v := accruals])
  }

  lemma UnsettledAfterCall(w: World, v: MarketId, step: Step, k: Kind)
    requires v in w.pool && ExchangeRate.Inv(w.pool[v]) && Apply(w.pool[v], step).Done?
    requires forall u | u in SettledFor(step.action) :: Since(SideOf(w.books, KindFor(step.action)), v, u) == 0
    ensures Total(UnsettledWorth(SharesOf(MarketAfter(w.pool[v], step), k), SideOf(w.books, k), v))
         <= Total(UnsettledWorth(SharesOf(w.pool[v], k), SideOf(w.books, k), v))
  {
    var m, side := w.pool[v], SideOf(w.books, k);
    var m' := MarketAfter(m, step);
    forall u
      ensures At(UnsettledWorth(SharesOf(m', k), side, v), u) <= At(UnsettledWorth(SharesOf(m, k), side, v), u)
    {
      UnsettledEntry(SharesOf(m, k), side, v, u);
      UnsettledEntry(SharesOf(m', k), side, v, u);
      ShareAfterCall(m, step, k, u);
      UnitsWithinShares(m, k, u);
      WorthAtShares(At(SharesOf(m, k), u), At(SharesOf(m', k), u), Since(side, v, u));
    }
    TotalBelow(UnsettledWorth(SharesOf(m', k), side, v), UnsettledWorth(SharesOf(m, k), side, v));
  }

  lemma WorthAtShares(before: real, after: real, since: nat)
    requires 0.0 <= before && (after == before || after == 0.0 || since == 0)
    ensures Times(after, since as real) <= Times(before, since as real)
  {
    TimesZero(after);
    TimesZero(before);
    TimesZero(since as real);
    TimesMonotone(since as real, 0.0, before);
    TimesSwap(since as real, before);
  }

  lemma LedgerOnly(w: World, v: MarketId, m: LiveMarket, accruals: nat)
    requires Holds(w) && v in w.pool && ExchangeRate.Inv(m) && DebtWithin(m, accruals)
    ensures OnlyMarket(w, WithLedger(w, v, m, accruals), v) && MarketHolds(WithLedger(w, v, m, accruals), v)
  {
    MarketHoldsAt(w, v);
  }

  lemma LedgerKeeps(w: World, v: MarketId, m: LiveMarket, accruals: nat)
    requires Holds(w) && v in w.pool && ExchangeRate.Inv(m) && DebtWithin(m, accruals)
    requires Falls(w, v, m)
    ensures Keeps(w, WithLedger(w, v, m, accruals))
  {
    var w' := WithLedger(w, v, m, accruals);
    LedgerOnly(w, v, m, accruals);
    DueChanges(w, w', v);
    assert Outstanding(w', v, Suppliers) <= Outstanding(w, v, Suppliers);
    assert Outstanding(w', v, Borrowing) <= Outstanding(w, v, Borrowing);
  }

  lemma CalledIs(w: World, v: MarketId, settings: AllowedSettings, action: Action)
    requires v in w.pool && Apply(w.pool[v], Step(settings, w.now, action)).Done?
    ensures var step := Step(settings, w.now, action);
      Called(w, v, settings, action)
        == WithLedger(AfterHooks(w, v, action), v, MarketAfter(w.pool[v], step), Get(w.accruals, v) + Accruals1(w.pool[v], step))
    ensures AfterHooks(w, v, action).accruals == w.accruals && AfterHooks(w, v, action).now == w.now
  {
    HookLeaves(w, v, action);
  }

  lemma HookLeaves(w: World, v: MarketId, action: Action)
    requires v in w.pool
    ensures AfterHooks(w, v, action).accruals == w.accruals && AfterHooks(w, v, action).now == w.now
  {
    if SettledFor(action) != [] {
      EachLeaves(Update(w, KindFor(action), v), KindFor(action), v, SettledFor(action));
    }
  }

  lemma {:induction false} EachLeaves(w: World, k: Kind, v: MarketId, us: seq<User>)
    requires v in w.pool
    ensures SettleEach(w, k, v, us).accruals == w.accruals
    decreases |us|
  {
    if |us| > 0 {
      EachLeaves(Settle(w, k, v, us[0]), k, v, us[1..]);
    }
  }

  /// The same or less on both sides.
  ghost predicate Falls(w: World, v: MarketId, m: LiveMarket)
    requires v in w.pool
  {
    forall k :: Total(UnsettledWorth(SharesOf(m, k), SideOf(w.books, k), v)) <= Total(UnsettledWorth(SharesOf(w.pool[v], k), SideOf(w.books, k), v))
  }

  lemma FallsAfterCall(w: World, v: MarketId, step: Step)
    requires v in w.pool && ExchangeRate.Inv(w.pool[v]) && Apply(w.pool[v], step).Done?
    requires forall u | u in SettledFor(step.action) :: Since(SideOf(w.books, KindFor(step.action)), v, u) == 0
    ensures Falls(w, v, MarketAfter(w.pool[v], step))
  {
    forall k
      ensures Total(UnsettledWorth(SharesOf(MarketAfter(w.pool[v], step), k), SideOf(w.books, k), v))
           <= Total(UnsettledWorth(SharesOf(w.pool[v], k), SideOf(w.books, k), v))
    {
      UnsettledAfterCall(w, v, step, k);
    }
  }

  lemma FallsAfterHook(w: World, v: MarketId, step: Step)
    requires Holds(w) && v in w.pool && Apply(w.pool[v], step).Done?
    ensures Falls(AfterHooks(w, v, step.action), v, MarketAfter(w.pool[v], step))
  {
    MarketHoldsAt(w, v);
    HookKeeps(w, v, step.action);
    FallsAfterCall(AfterHooks(w, v, step.action), v, step);
  }

  lemma LedgerAfterCall(w: World, v: MarketId, step: Step)
    requires Holds(w) && v in w.pool
    ensures ExchangeRate.Inv(MarketAfter(w.pool[v], step))
    ensures DebtWithin(MarketAfter(w.pool[v], step), Get(w.accruals, v) + Accruals1(w.pool[v], step))
  {
    MarketHoldsAt(w, v);
    BorrowerRewards.MarketInv(w.pool[v], step, Get(w.accruals, v));
  }

  /// A call in two stages: its hooks, and the ledger's part.
  ghost predicate InStages(w: World, w1: World, v: MarketId, m: LiveMarket, n: nat) {
    Keeps(w, w1) && v in w1.pool && ExchangeRate.Inv(m) && DebtWithin(m, n) && Falls(w1, v, m)
  }

  lemma StagesOf(w: World, v: MarketId, step: Step)
    requires Holds(w) && v in w.pool && Apply(w.pool[v], step).Done?
    ensures InStages(w, AfterHooks(w, v, step.action), v, MarketAfter(w.pool[v], step), Get(w.accruals, v) + Accruals1(w.pool[v], step))
  {
    FallsAfterHook(w, v, step);
    LedgerAfterCall(w, v, step);
    HookKeeps(w, v, step.action);
  }

  lemma StagesKeep(w: World, w1: World, v: MarketId, m: LiveMarket, n: nat)
    requires InStages(w, w1, v, m, n)
    ensures Keeps(w, WithLedger(w1, v, m, n))
  {
    LedgerKeeps(w1, v, m, n);
    KeepsBoth(w, w1, WithLedger(w1, v, m, n));
  }

  lemma CallStages(w: World, v: MarketId, settings: AllowedSettings, action: Action) returns (w1: World, m: LiveMarket, n: nat)
    requires Holds(w) && v in w.pool && Apply(w.pool[v], Step(settings, w.now, action)).Done?
    ensures Called(w, v, settings, action) == WithLedger(w1, v, m, n) && InStages(w, w1, v, m, n)
  {
    var step := Step(settings, w.now, action);
    w1, m, n := AfterHooks(w, v, action), MarketAfter(w.pool[v], step), Get(w.accruals, v) + Accruals1(w.pool[v], step);
    CalledIs(w, v, settings, action);
    StagesOf(w, v, step);
  }

  lemma CallKeeps(w: World, v: MarketId, settings: AllowedSettings, action: Action)
    requires Holds(w) && v in w.pool
    ensures Keeps(w, Called(w, v, settings, action))
  {
    if Apply(w.pool[v], Step(settings, w.now, action)).Done? {
      CallGoesOn(w, v, settings, action);
    }
  }

  lemma CallGoesOn(w: World, v: MarketId, settings: AllowedSettings, action: Action)
    requires Holds(w) && v in w.pool && Apply(w.pool[v], Step(settings, w.now, action)).Done?
    ensures Keeps(w, Called(w, v, settings, action))
  {
    var w1, m, n := CallStages(w, v, settings, action);
    StagesKeep(w, w1, v, m, n);
  }

  // ---------- everything else ----------

  /// Nobody's index moved.
  ghost predicate SameIndices(side: Side, side': Side) {
    forall x, u :: Since(side', x, u) == Since(side, x, u)
  }

  lemma SameOutstanding(w: World, w': World)
    requires w'.pool == w.pool
    requires SameIndices(w.books.supply, w'.books.supply) && SameIndices(w.books.borrow, w'.books.borrow)
    ensures OfMarkets(w') == OfMarkets(w)
  {
    forall v | v in w.pool
      ensures OfMarket(w', v) == OfMarket(w, v)
    {
      assert UnsettledWorth(SharesOf(w.pool[v], Suppliers), w'.books.supply, v) == UnsettledWorth(SharesOf(w.pool[v], Suppliers), w.books.supply, v);
      assert UnsettledWorth(SharesOf(w.pool[v], Borrowing), w'.books.borrow, v) == UnsettledWorth(SharesOf(w.pool[v], Borrowing), w.books.borrow, v);
    }
    assert OfMarkets(w').Keys == OfMarkets(w).Keys;
  }

  lemma GrantReceived(w: World, u: User)
    ensures Received(Granted(w, u)) == Received(w)
  {
    var amount := Get(w.books.accrued, u);
    NatTotalUpdate(w.books.accrued, u, 0);
    NatTotalUpdate(w.books.accrued, u, amount);
    NatTotalUpdate(w.paid, u, Get(w.paid, u) + amount);
  }

  lemma GrantKeeps(w: World, u: User)
    requires Holds(w)
    ensures Keeps(w, Granted(w, u))
  {
    var w' := Granted(w, u);
    GrantReceived(w, u);
    SameOutstanding(w, w');
    forall v
      ensures MarketHolds(w', v)
    {
      assert MarketHolds(w, v);
    }
  }

  lemma SideLater(side: Side, v: MarketId, now: nat, later: nat)
    requires SideInv(side, v, now) && now <= later
    ensures SideInv(side, v, later)
  {
  }

  lemma AdvanceKeeps(w: World, blocks: nat)
    requires Holds(w)
    ensures Keeps(w, w.(now := w.now + blocks))
  {
    var w' := w.(now := w.now + blocks);
    SameOutstanding(w, w');
    forall v
      ensures MarketHolds(w', v)
    {
      assert MarketHolds(w, v);
      if v in w.pool {
        SideLater(w.books.supply, v, w.now, w'.now);
        SideLater(w.books.borrow, v, w.now, w'.now);
      }
    }
  }

  lemma FundKeeps(w: World, amount: nat)
    requires Holds(w)
    ensures Keeps(w, w.(books := w.books.(held := w.books.held + amount)))
  {
    var w' := w.(books := w.books.(held := w.books.held + amount));
    SameOutstanding(w, w');
    forall v
      ensures MarketHolds(w', v)
    {
      assert MarketHolds(w, v);
    }
  }

  lemma SpeedOnly(w: World, k: Kind, v: MarketId, speed: nat)
    requires Holds(w)
    ensures var side := SideOf(w.books, k);
      Keeps(w, w.(books := WithSide(w.books, k, side.(speeds := side.speeds[v := speed]))))
  {
    var side := SideOf(w.books, k);
    var w' := w.(books := WithSide(w.books, k, side.(speeds := side.speeds[v := speed])));
    SameOutstanding(w, w');
    forall x
      ensures MarketHolds(w', x)
    {
      assert MarketHolds(w, x);
      assert SameSide(w.books.supply, w'.books.supply, x) && SameSide(w.books.borrow, w'.books.borrow, x);
      SameMarketInv(w, w', x);
    }
  }

  lemma SpeedKeeps(w: World, k: Kind, v: MarketId, speed: nat)
    requires Holds(w) && v in w.pool
    ensures Keeps(w, SpeedSet(w, k, v, speed))
  {
    if Get(SideOf(w.books, k).speeds, v) != speed {
      var w1 := Update(w, k, v);
      UpdateKeeps(w, k, v);
      SpeedOnly(w1, k, v, speed);
      KeepsBoth(w, w1, SpeedSet(w, k, v, speed));
    }
  }

  lemma LastOfSide(side: Side, v: MarketId, now: nat, last: nat)
    requires SideInv(side, v, now) && Rewards.SetLastRewardingBlock(side.State(v), now, last).Done?
    ensures var side' := side.(states := side.states[v := Rewards.SetLastRewardingBlock(side.State(v), now, last).value]);
      && SideInv(side', v, now) && SameIndices(side, side')
      && forall x | x != v :: SameSide(side, side', x)
  {
    var side' := side.(states := side.states[v := Rewards.SetLastRewardingBlock(side.State(v), now, last).value]);
    forall u
      ensures IndexInRange(side', v, u)
    {
      assert IndexInRange(side, v, u);
    }
  }

  lemma KeepsWhen(w: World, w': World)
    requires Holds(w') && w'.books.accrued == w.books.accrued && w'.paid == w.paid
    requires w'.released == w.released && w'.excess == w.excess
    requires Total(OfMarkets(w')) <= Total(OfMarkets(w))
    ensures Keeps(w, w')
  {
  }

  lemma StatesInv(w: World, v: MarketId, s: RewardState, b: RewardState)
    requires Holds(w) && v in w.pool
    requires SideInv(WithStates(w, v, s, b).books.supply, v, w.now) && SideInv(WithStates(w, v, s, b).books.borrow, v, w.now)
    ensures Holds(WithStates(w, v, s, b))
  {
    var w' := WithStates(w, v, s, b);
    forall x
      ensures MarketHolds(w', x)
    {
      assert MarketHolds(w, x);
      if x != v {
        SameMarketInv(w, w', x);
      }
    }
  }

  lemma StatesKeep(w: World, v: MarketId, s: RewardState, b: RewardState)
    requires Holds(w) && v in w.pool
    requires var w' := WithStates(w, v, s, b);
      && SideInv(w'.books.supply, v, w.now) && SideInv(w'.books.borrow, v, w.now)
      && SameIndices(w.books.supply, w'.books.supply) && SameIndices(w.books.borrow, w'.books.borrow)
    ensures Keeps(w, WithStates(w, v, s, b))
  {
    var w' := WithStates(w, v, s, b);
    SameOutstanding(w, w');
    StatesInv(w, v, s, b);
    KeepsWhen(w, w');
  }

  lemma LastKeeps(w: World, v: MarketId, supplyLast: nat, borrowLast: nat)
    requires Holds(w) && v in w.pool
    ensures Keeps(w, LastSet(w, v, supplyLast, borrowLast))
  {
    var s, b := Rewards.SetLastRewardingBlock(w.books.supply.State(v), w.now, supplyLast),
                Rewards.SetLastRewardingBlock(w.books.borrow.State(v), w.now, borrowLast);
    if s.Done? && b.Done? {
      MarketHoldsAt(w, v);
      LastOfSide(w.books.supply, v, w.now, supplyLast);
      LastOfSide(w.books.borrow, v, w.now, borrowLast);
      StatesKeep(w, v, s.value, b.value);
    }
  }

  lemma StartedSide(side: Side, v: MarketId, now: nat)
    requires Untouched(side, v)
    ensures var side' := side.(states := side.states[v := Started(side.State(v), now)]);
      && SideInv(side', v, now)
      && (forall u :: Since(side', v, u) == 0)
      && forall x | x != v :: SameSide(side, side', x)
  {
  }

  lemma NothingUnsettled(shares: map<User, real>, side: Side, v: MarketId)
    requires forall u :: Since(side, v, u) == 0
    ensures Total(UnsettledWorth(shares, side, v)) <= 0.0
  {
    forall u
      ensures At(UnsettledWorth(shares, side, v), u) <= At(map[], u)
    {
      UnsettledEntry(shares, side, v, u);
      TimesZero(At(shares, u));
    }
    TotalBelow(UnsettledWorth(shares, side, v), map[]);
  }

  lemma RestAfterSupport(w: World, w': World, v: MarketId)
    requires v !in w.pool && w'.pool.Keys == w.pool.Keys + {v}
    requires forall x | x != v :: SameMarket(w, w', x)
    ensures OfMarkets(w') - {v} == OfMarkets(w)
  {
    var a, b := OfMarkets(w') - {v}, OfMarkets(w);
    assert a.Keys == b.Keys;
    forall x | x in a.Keys
      ensures a[x] == b[x]
    {
      assert SameMarket(w, w', x);
      SameUnsettled(SharesOf(w.pool[x], Suppliers), w.books.supply, w'.books.supply, x);
      SameUnsettled(SharesOf(w.pool[x], Borrowing), w.books.borrow, w'.books.borrow, x);
    }
  }

  lemma AddedOnly(w: World, v: MarketId, m: LiveMarket, accruals: nat)
    requires Holds(w) && v !in w.pool && ExchangeRate.Inv(m) && DebtWithin(m, accruals)
    ensures var w' := Added(w, v, m, accruals);
      && MarketHolds(w', v) && w'.pool.Keys == w.pool.Keys + {v}
      && forall x | x != v :: SameMarket(w, w', x)
  {
    assert MarketHolds(w, v);
    StartedSide(w.books.supply, v, w.now);
    StartedSide(w.books.borrow, v, w.now);
  }

  lemma AddedNothing(w: World, v: MarketId, m: LiveMarket, accruals: nat)
    requires Holds(w) && v !in w.pool
    ensures OfMarket(Added(w, v, m, accruals), v) <= 0.0
  {
    var w' := Added(w, v, m, accruals);
    assert MarketHolds(w, v);
    StartedSide(w.books.supply, v, w.now);
    StartedSide(w.books.borrow, v, w.now);
    NothingUnsettled(SharesOf(m, Suppliers), w'.books.supply, v);
    NothingUnsettled(SharesOf(m, Borrowing), w'.books.borrow, v);
  }

  lemma AddedInv(w: World, v: MarketId, m: LiveMarket, accruals: nat)
    requires Holds(w) && v !in w.pool && ExchangeRate.Inv(m) && DebtWithin(m, accruals)
    ensures Holds(Added(w, v, m, accruals))
  {
    var w' := Added(w, v, m, accruals);
    AddedOnly(w, v, m, accruals);
    forall x
      ensures MarketHolds(w', x)
    {
      assert MarketHolds(w, x);
      if x != v {
        SameMarketInv(w, w', x);
      }
    }
  }

  lemma AddedKeeps(w: World, v: MarketId, m: LiveMarket, accruals: nat)
    requires Holds(w) && v !in w.pool && ExchangeRate.Inv(m) && DebtWithin(m, accruals)
    ensures Keeps(w, Added(w, v, m, accruals))
  {
    var w' := Added(w, v, m, accruals);
    AddedOnly(w, v, m, accruals);
    AddedNothing(w, v, m, accruals);
    AddedInv(w, v, m, accruals);
    RestAfterSupport(w, w', v);
    TotalAdded(OfMarkets(w'), OfMarkets(w), v);
    KeepsWhen(w, w');
  }

  lemma TotalAdded(a: map<MarketId, real>, b: map<MarketId, real>, v: MarketId)
    requires a - {v} == b && At(a, v) <= 0.0
    ensures Total(a) <= Total(b)
  {
    TotalWithout(a, v);
  }

  lemma SupportKeeps(w: World, v: MarketId, past: seq<Step>)
    requires Holds(w) && v !in w.pool
    ensures Keeps(w, Supported(w, v, past))
  {
    PastIsLive(past);
    AddedKeeps(w, v, Ledger.Run(NewMarket(0), past), Accruals(NewMarket(0), past));
  }

  // ---------- every event ----------

  lemma EventKeeps(w: World, e: Event)
    requires Holds(w)
    ensures Keeps(w, Next(w, e))
  {
    match e
    case Advance(blocks) => AdvanceKeeps(w, blocks);
    case Support(v, past) => if v !in w.pool { SupportKeeps(w, v, past); }
    case Call(v, settings, action) => if v in w.pool { CallKeeps(w, v, settings, action); }
    case Claim(u, vs) =>
      if forall v :: v in vs ==> v in w.pool {
        SettleAllKeeps(w, vs, u);
        GrantKeeps(SettleAll(w, vs, u), u);
        KeepsBoth(w, SettleAll(w, vs, u), Granted(SettleAll(w, vs, u), u));
      }
    case SetSpeeds(v, supplySpeed, borrowSpeed) =>
      if v in w.pool {
        var w1 := SpeedSet(w, Suppliers, v, supplySpeed);
        SpeedKeeps(w, Suppliers, v, supplySpeed);
        SpeedKeeps(w1, Borrowing, v, borrowSpeed);
        KeepsBoth(w, w1, SpeedSet(w1, Borrowing, v, borrowSpeed));
      }
    case SetLast(v, supplyLast, borrowLast) => if v in w.pool { LastKeeps(w, v, supplyLast, borrowLast); }
    case Fund(amount) => FundKeeps(w, amount);
  }
}

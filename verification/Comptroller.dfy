/** The Comptroller contract, updated in place: account memberships, collateral factors, account liquidity, and the
    two calls that settle small accounts. A reverting call leaves everything as it found it. */
module ComptrollerContract {
  import opened FixedPoint
  import opened Totals
  import opened Outcomes
  import opened Ledger
  import opened Borrowers
  import opened Liquidity
  import opened Pools
  import opened Worth
  import opened SmallAccounts
  import opened Liquidations
  import AssetLists
  import PoolRuns

  datatype Status = Ok | Failed(error: Error)

  ghost predicate Agrees<T>(outcome: Outcome<T>, before: T, status: Status, after: T) {
    match outcome
    case Done(x) => status == Ok && after == x
    case Revert(e) => status == Failed(e) && after == before
  }

  class Comptroller {
    var allMarkets: seq<MarketId>
    var listed: set<MarketId>
    var members: set<(MarketId, Account)>
    var accountAssets: map<Account, seq<MarketId>>
    var pool: Pool

    function Lists(): AssetLists.Lists
      reads this
    {
      AssetLists.Lists(allMarkets, listed, members, accountAssets)
    }

    function State(): PoolRuns.State
      reads this
    {
      PoolRuns.State(Lists(), pool)
    }

    function Access(a: Account): Liquidations.Access
      reads this
    {
      PoolRuns.AccessOf(Lists(), a)
    }

    /// Lists and memberships agree, every market is sound, and factors are in order.
    ghost predicate Valid()
      reads this
    {
      PoolRuns.Valid(State())
    }

    constructor (settings: map<MarketId, AllowedSettings>, prices: map<MarketId, nat>, incentive: nat, minimum: nat)
      ensures State() == PoolRuns.Deployed(settings, prices, incentive, minimum) && Valid()
    {
      allMarkets, listed, members, accountAssets := [], {}, {}, map[];
      pool := Pool(map[], settings, prices, map[], map[], incentive, minimum);
      new;
      PoolRuns.DeployedIsValid(settings, prices, incentive, minimum);
    }

    // ---------- memberships ----------

    method AddToMarket(mk: MarketId, a: Account, paused: bool) returns (status: Status)
      modifies this`members, this`accountAssets
      ensures Agrees(AssetLists.AddToMarket(old(Lists()), mk, a, paused), old(Lists()), status, Lists())
    {
      if paused {
        return Failed(ActionPaused);
      }
      if mk !in listed {
        return Failed(MarketNotListed);
      }
      if (mk, a) in members {
        return Ok;
      }
      members := members + {(mk, a)};
      accountAssets := accountAssets[a := AssetLists.ListOf(Lists(), a) + [mk]];
      status := Ok;
    }

    method EnterMarkets(mks: seq<MarketId>, a: Account, paused: set<MarketId>) returns (status: Status)
      requires Valid()
      modifies this`members, this`accountAssets
      ensures Valid()
      ensures Agrees(AssetLists.EnterMarkets(old(Lists()), mks, a, paused), old(Lists()), status, Lists())
    {
      AssetLists.EventKeeps(Lists(), AssetLists.Enter(mks, a, paused));
      var savedMembers, savedAssets := members, accountAssets;
      ghost var before := Lists();
      status := Ok;
      for i := 0 to |mks|
        invariant status == Ok
        invariant AssetLists.EnterMarkets(before, mks, a, paused)
               == AssetLists.EnterMarkets(Lists(), mks[i..], a, paused)
      {
        status := AddToMarket(mks[i], a, mks[i] in paused);
        assert mks[i..][1..] == mks[i + 1..];
        if status != Ok {
          members, accountAssets := savedMembers, savedAssets;
          return;
        }
      }
    }

    /// An account leaves a market when it owes nothing there and may redeem all it has there.
    method ExitMarket(mk: MarketId, a: Account, paused: bool) returns (status: Status)
      requires Valid()
      modifies this`members, this`accountAssets
      ensures Valid()
      ensures Agrees(PoolRuns.ExitMarket(old(State()), mk, a, paused), old(State()), status, State())
      ensures status == Ok <==>
        (!paused && Debt(pool, mk, a) == 0 && mk in listed
         && ((mk, a) in old(members) ==> PoolRuns.CheckEffect(old(State()), a, InMarket(mk, Tokens(pool, mk, a), 0)).Done?))
    {
      PoolRuns.EventKeepsValid(State(), PoolRuns.Exit(mk, a, paused));
      ghost var check := PoolRuns.CheckEffect(State(), a, InMarket(mk, Tokens(pool, mk, a), 0));
      AssetLists.ExitKeeps(Lists(), mk, a, paused, Debt(pool, mk, a), check);
      if paused {
        return Failed(ActionPaused);
      }
      var tokensHeld, amountOwed := Tokens(pool, mk, a), Debt(pool, mk, a);
      if amountOwed != 0 {
        return Failed(NonzeroBorrowBalance);
      }
      var redeemable := CheckRedeemAllowed(mk, a, tokensHeld);
      if redeemable != Ok {
        return redeemable;
      }
      if (mk, a) !in members {
        return Ok;
      }
      RemoveFromList(mk, a);
      status := Ok;
    }

    /// Whether an account may give up vTokens: whoever is not in the market may, others after a liquidity check.
    method CheckRedeemAllowed(mk: MarketId, a: Account, tokens: nat) returns (status: Status)
      ensures match PoolRuns.CheckRedeemAllowed(State(), mk, a, tokens)
        case Done(_) => status == Ok
        case Revert(e) => status == Failed(e)
      ensures var ps := Positions(pool, a, PoolRuns.AssetsOf(State(), a));
        && (status == Ok <==>
              mk in listed && ((mk, a) in members ==> Priced(ps) && 0 <= Surplus(ps, CollateralFactor, InMarket(mk, tokens, 0))))
        && TellsWorth(SnapshotOf(ps, CollateralFactor, NoEffect), pool, a, PoolRuns.AssetsOf(State(), a), CollateralFactor)
    {
      SnapshotTellsWorth(pool, a, PoolRuns.AssetsOf(State(), a), CollateralFactor);
      if mk !in listed {
        return Failed(MarketNotListed);
      }
      if (mk, a) !in members {
        return Ok;
      }
      var assets := GetAssetsIn(a);
      var snapshot := GetHypotheticalLiquiditySnapshot(Positions(pool, a, assets), CollateralFactor, InMarket(mk, tokens, 0));
      if snapshot.Revert? {
        return Failed(snapshot.error);
      }
      if snapshot.value.shortfall > 0 {
        return Failed(InsufficientLiquidity);
      }
      status := Ok;
    }

    /// The search for the entry, which never fails, and the last entry put in its place.
    method RemoveFromList(mk: MarketId, a: Account)
      requires AssetLists.Inv(Lists()) && (mk, a) in members
      modifies this`members, this`accountAssets
      ensures members == old(members) - {(mk, a)}
      ensures var list := AssetLists.ListOf(old(Lists()), a);
        && AssetLists.IndexIn(list, mk) < |list|
        && accountAssets == old(accountAssets)[a := AssetLists.SwapAndPop(list, AssetLists.IndexIn(list, mk))]
    {
      var userAssetList := AssetLists.ListOf(Lists(), a);
      AssetLists.IndexFinds(userAssetList, mk);
      assert AssetLists.ListInv(Lists(), a);
      var assetIndex := |userAssetList|;
      var i := 0;
      while i < |userAssetList|
        invariant 0 <= i <= |userAssetList| && i <= AssetLists.IndexIn(userAssetList, mk)
        invariant assetIndex == |userAssetList|
      {
        if userAssetList[i] == mk {
          assetIndex := i;
          break;
        }
        i := i + 1;
      }
      members := members - {(mk, a)};
      var storedList := userAssetList[assetIndex := userAssetList[|userAssetList| - 1]];
      accountAssets := accountAssets[a := storedList[..|storedList| - 1]];
    }

    method UnlistMarket(mk: MarketId, paused: set<AssetLists.Pausable>, borrowCap: nat, supplyCap: nat) returns (status: Status)
      requires Valid()
      modifies this`listed
      ensures Valid()
      ensures var controls := AssetLists.Controls(paused, borrowCap, supplyCap, Get(pool.collateralFactors, mk));
        && Agrees(AssetLists.UnlistMarket(old(Lists()), mk, controls), old(Lists()), status, Lists())
        && (status == Ok <==> mk in old(listed) && AssetLists.ShutDown(controls))
    {
      ghost var controls := AssetLists.Controls(paused, borrowCap, supplyCap, Get(pool.collateralFactors, mk));
      AssetLists.EventKeeps(Lists(), AssetLists.Unlist(mk, controls));
      AssetLists.UnlistsWhenShutDown(Lists(), mk, controls);
      if mk !in listed {
        return Failed(MarketNotListed);
      }
      if AssetLists.BORROW !in paused {
        return Failed(ActionNotPaused);
      }
      if AssetLists.MINT !in paused {
        return Failed(ActionNotPaused);
      }
      if AssetLists.REDEEM !in paused {
        return Failed(ActionNotPaused);
      }
      if AssetLists.REPAY !in paused {
        return Failed(ActionNotPaused);
      }
      if AssetLists.SEIZE !in paused {
        return Failed(ActionNotPaused);
      }
      if AssetLists.ENTER_MARKET !in paused {
        return Failed(ActionNotPaused);
      }
      if AssetLists.LIQUIDATE !in paused {
        return Failed(ActionNotPaused);
      }
      if AssetLists.TRANSFER !in paused {
        return Failed(ActionNotPaused);
      }
      if AssetLists.EXIT_MARKET !in paused {
        return Failed(ActionNotPaused);
      }
      if borrowCap != 0 {
        return Failed(BorrowCapIsNotZero);
      }
      if supplyCap != 0 {
        return Failed(SupplyCapIsNotZero);
      }
      if Get(pool.collateralFactors, mk) != 0 {
        return Failed(CollateralFactorIsNotZero);
      }
      listed := listed - {mk};
      status := Ok;
    }

    /// A market is supported once, and its collateral does not count until governance says so.
    method SupportMarket(mk: MarketId) returns (status: Status)
      requires Valid()
      modifies this`listed, this`allMarkets, this`pool
      ensures Valid()
      ensures Agrees(PoolRuns.SupportMarket(old(State()), mk), old(State()), status, State())
    {
      PoolRuns.EventKeepsValid(State(), PoolRuns.Support(mk));
      if mk in listed {
        return Failed(MarketAlreadyListed);
      }
      for i := 0 to |allMarkets|
        invariant mk !in allMarkets[..i]
      {
        if allMarkets[i] == mk {
          return Failed(MarketAlreadyListed);
        }
      }
      listed := listed + {mk};
      pool := pool.(collateralFactors := pool.collateralFactors[mk := 0], thresholds := pool.thresholds[mk := 0]);
      allMarkets := allMarkets + [mk];
      status := Ok;
    }

    method GetAssetsIn(a: Account) returns (assetsIn: seq<MarketId>)
      ensures assetsIn == PoolRuns.AssetsOf(State(), a)
    {
      var list := AssetLists.ListOf(Lists(), a);
      var buffer := new MarketId[|list|];
      var len := 0;
      for i := 0 to |list|
        invariant 0 <= len <= i
        invariant buffer[..len] == AssetLists.AssetsIn(listed, list[..i])
      {
        assert list[..i + 1][..i] == list[..i];
        if list[i] in listed {
          buffer[len] := list[i];
          len := len + 1;
        }
      }
      assert list[..|list|] == list;
      assetsIn := buffer[..len];
    }

    // ---------- factors and liquidity ----------

    method SetCollateralFactor(mk: MarketId, collateralFactor: nat, threshold: nat) returns (status: Status)
      requires Valid()
      modifies this`pool
      ensures Valid()
      ensures status == Ok <==>
        (mk in listed && collateralFactor <= PoolRuns.MAX_COLLATERAL_FACTOR && collateralFactor <= threshold <= EXP_SCALE
         && (collateralFactor != 0 ==> Get(old(pool).prices, mk) != 0))
      ensures Agrees(PoolRuns.SetCollateralFactor(old(State()), mk, collateralFactor, threshold), old(State()), status, State())
    {
      PoolRuns.EventKeepsValid(State(), PoolRuns.Factors(mk, collateralFactor, threshold));
      if mk !in listed {
        return Failed(MarketNotListed);
      }
      if collateralFactor > PoolRuns.MAX_COLLATERAL_FACTOR {
        return Failed(InvalidCollateralFactor);
      }
      if threshold > EXP_SCALE {
        return Failed(InvalidLiquidationThreshold);
      }
      if threshold < collateralFactor {
        return Failed(InvalidLiquidationThreshold);
      }
      if collateralFactor != 0 && Get(pool.prices, mk) == 0 {
        return Failed(PriceError);
      }
      pool := pool.(collateralFactors := pool.collateralFactors[mk := collateralFactor],
                    thresholds := pool.thresholds[mk := threshold]);
      status := Ok;
    }

    /// Borrowing power and standing against liquidation, in that order: the first is never the better one, and of
    /// neither are liquidity and shortfall both positive.
    method GetAccountLiquidity(a: Account) returns (power: Outcome<Snapshot>, health: Outcome<Snapshot>)
      requires Valid()
      ensures health == Health(pool, a, PoolRuns.AssetsOf(State(), a)) && (power.Done? <==> health.Done?)
      ensures power.Done? ==>
        && power.value == SnapshotOf(Positions(pool, a, PoolRuns.AssetsOf(State(), a)), CollateralFactor, NoEffect)
        && health.value.shortfall <= power.value.shortfall && power.value.liquidity <= health.value.liquidity
        && (power.value.shortfall == 0 || power.value.liquidity == 0)
        && (health.value.shortfall == 0 || health.value.liquidity == 0)
        && TellsWorth(power.value, pool, a, PoolRuns.AssetsOf(State(), a), CollateralFactor)
        && TellsWorth(health.value, pool, a, PoolRuns.AssetsOf(State(), a), LiquidationThreshold)
    {
      SnapshotTellsWorth(pool, a, PoolRuns.AssetsOf(State(), a), CollateralFactor);
      SnapshotTellsWorth(pool, a, PoolRuns.AssetsOf(State(), a), LiquidationThreshold);
      PoolRuns.PositionsInOrder(State(), a);
      var assets := GetAssetsIn(a);
      BorrowingPowerProtects(Positions(pool, a, assets));
      power := GetHypotheticalLiquiditySnapshot(Positions(pool, a, assets), CollateralFactor, NoEffect);
      health := GetHypotheticalLiquiditySnapshot(Positions(pool, a, assets), LiquidationThreshold, NoEffect);
    }

    // ---------- small accounts ----------

    method AccrueInterest(mk: MarketId, now: nat, rates: map<MarketId, nat>) returns (status: Status)
      modifies this`pool
      ensures Agrees(Accrued(old(pool), mk, now, rates), old(pool), status, pool)
    {
      var accrued := Accrued(pool, mk, now, rates);
      if accrued.Revert? {
        return Failed(accrued.error);
      }
      pool := accrued.value;
      status := Ok;
    }

    /// One market of a heal.
    method HealOne(mk: MarketId, liquidator: Account, user: Account, percentage: nat, fee: nat) returns (status: Status)
      modifies this`pool
      ensures match HealMarket(SettingsOf(old(pool), mk), MarketOf(old(pool), mk), liquidator, user, percentage, fee)
        case Done(m) => status == Ok && pool == WithMarket(old(pool), mk, m)
        case Revert(e) => status == Failed(e)
    {
      var market := MarketOf(pool, mk);
      var tokens, borrowBalance := Get(market.accountTokens, user), Balance(market, user);
      var repaymentAmount := MulTruncate(percentage, borrowBalance);
      if tokens != 0 {
        var seized := Seize(SettingsOf(pool, mk), market, liquidator, user, tokens);
        if seized.Revert? {
          return Failed(seized.error);
        }
        market := seized.value;
      }
      if borrowBalance != 0 {
        var healed := HealBorrow(market, user, repaymentAmount, fee);
        if healed.Revert? {
          return Failed(healed.error);
        }
        market := healed.value;
      }
      pool := pool.(markets := pool.markets[mk := market]);
      status := Ok;
    }

    /// The loop that brings the account's markets up to date.
    method AccrueMarkets(now: nat, rates: map<MarketId, nat>, userAssets: seq<MarketId>) returns (status: Status)
      modifies this`pool
      ensures match AccrueAll(old(pool), now, rates, userAssets)
        case Done(p) => status == Ok && pool == p
        case Revert(e) => status == Failed(e)
    {
      status := Ok;
      for i := 0 to |userAssets|
        invariant status == Ok
        invariant AccrueAll(old(pool), now, rates, userAssets) == AccrueAll(pool, now, rates, userAssets[i..])
      {
        status := AccrueInterest(userAssets[i], now, rates);
        assert userAssets[i..][1..] == userAssets[i + 1..];
        if status != Ok {
          return;
        }
      }
    }

    /// The loop that heals the account's markets.
    method HealMarketsInTurn(liquidator: Account, user: Account, percentage: nat, fees: map<MarketId, nat>, userAssets: seq<MarketId>)
      returns (status: Status)
      modifies this`pool
      ensures match HealMarkets(old(pool), liquidator, user, percentage, fees, userAssets)
        case Done(p) => status == Ok && pool == p
        case Revert(e) => status == Failed(e)
    {
      status := Ok;
      for i := 0 to |userAssets|
        invariant status == Ok
        invariant HealMarkets(old(pool), liquidator, user, percentage, fees, userAssets)
               == HealMarkets(pool, liquidator, user, percentage, fees, userAssets[i..])
      {
        status := HealOne(userAssets[i], liquidator, user, percentage, Get(fees, userAssets[i]));
        assert userAssets[i..][1..] == userAssets[i + 1..];
        if status != Ok {
          return;
        }
      }
    }

    /// Accruing, the checks, and the healing.
    method HealSteps(now: nat, rates: map<MarketId, nat>, liquidator: Account, user: Account, fees: map<MarketId, nat>,
                     userAssets: seq<MarketId>) returns (status: Status)
      modifies this`pool
      ensures match SmallAccounts.HealAccount(old(pool), now, rates, liquidator, user, userAssets, fees)
        case Done(p) => status == Ok && pool == p
        case Revert(e) => status == Failed(e)
    {
      status := AccrueMarkets(now, rates, userAssets);
      if status != Ok {
        return;
      }
      var snapshot := GetHypotheticalLiquiditySnapshot(Positions(pool, user, userAssets), LiquidationThreshold, NoEffect);
      if snapshot.Revert? {
        return Failed(snapshot.error);
      }
      var percentage := HealPercentage(snapshot.value, pool.minLiquidatableCollateral, pool.incentive);
      if percentage.Revert? {
        return Failed(percentage.error);
      }
      status := HealMarketsInTurn(liquidator, user, percentage.value, fees, userAssets);
    }

    /// Afterwards the account has neither vTokens nor borrows in any market it is in.
    method HealAccount(now: nat, rates: map<MarketId, nat>, liquidator: Account, user: Account, fees: map<MarketId, nat>)
      returns (status: Status)
      requires Valid()
      modifies this`pool
      ensures Valid()
      ensures Agrees(SmallAccounts.HealAccount(old(pool), now, rates, liquidator, user, PoolRuns.AssetsOf(old(State()), user), fees),
                     old(pool), status, pool)
      ensures status == Ok ==> Cleared(pool, user, PoolRuns.AssetsOf(old(State()), user))
      ensures var accrued := AccrueAll(old(pool), now, rates, PoolRuns.AssetsOf(old(State()), user));
        status == Ok ==> accrued.Done? && MayHeal(accrued.value, user, PoolRuns.AssetsOf(old(State()), user))
    {
      var saved := pool;
      var userAssets := GetAssetsIn(user);
      HealingKeepsValid(State(), now, rates, liquidator, user, fees);
      HealingClears(State(), now, rates, liquidator, user, fees);
      if AccrueAll(pool, now, rates, userAssets).Done? {
        HealedWasOpen(pool, now, rates, liquidator, user, userAssets, fees);
      }
      status := HealSteps(now, rates, liquidator, user, fees, userAssets);
      if status != Ok {
        pool := saved;
      }
    }

    /// One order of a liquidation.
    method ForceLiquidateBorrow(now: nat, rates: map<MarketId, nat>, liquidator: Account, user: Account, o: Order)
      returns (status: Status)
      modifies this`pool
      ensures match Execute(old(pool), Access(user), now, rates, liquidator, user, o)
        case Done(p) => status == Ok && pool == p
        case Revert(e) => status == Failed(e)
    {
      if o.borrowed !in listed {
        return Failed(MarketNotListed);
      }
      if o.collateral !in listed {
        return Failed(MarketNotListed);
      }
      var accrued := Accrued(pool, o.borrowed, now, rates);
      if accrued.Revert? {
        return Failed(accrued.error);
      }
      accrued := Accrued(accrued.value, o.collateral, now, rates);
      if accrued.Revert? {
        return Failed(accrued.error);
      }
      var repaid := Repaid(accrued.value, now, liquidator, user, o);
      if repaid.Revert? {
        return Failed(repaid.error);
      }
      var seizeTokens := TokensFor(repaid.value, o);
      if seizeTokens.Revert? {
        return Failed(seizeTokens.error);
      }
      if Tokens(repaid.value, o.collateral, user) < seizeTokens.value {
        return Failed(SeizeTooMuch);
      }
      if (o.collateral, user) !in members {
        return Failed(MarketNotCollateral);
      }
      var seized := Seized(repaid.value, liquidator, user, o.collateral, seizeTokens.value);
      if seized.Revert? {
        return Failed(seized.error);
      }
      pool := seized.value;
      status := Ok;
    }

    /// The orders in turn.
    method LiquidateInTurn(now: nat, rates: map<MarketId, nat>, liquidator: Account, user: Account, orders: seq<Order>)
      returns (status: Status)
      modifies this`pool
      ensures match ExecuteAll(old(pool), Access(user), now, rates, liquidator, user, orders)
        case Done(p) => status == Ok && pool == p
        case Revert(e) => status == Failed(e)
    {
      status := Ok;
      for i := 0 to |orders|
        invariant status == Ok
        invariant ExecuteAll(old(pool), Access(user), now, rates, liquidator, user, orders)
               == ExecuteAll(pool, Access(user), now, rates, liquidator, user, orders[i..])
      {
        status := ForceLiquidateBorrow(now, rates, liquidator, user, orders[i]);
        assert orders[i..][1..] == orders[i + 1..];
        if status != Ok {
          return;
        }
      }
    }

    method OwesNothing(user: Account, borrowMarkets: seq<MarketId>) returns (clear: bool)
      ensures clear <==> !exists i :: 0 <= i < |borrowMarkets| && Debt(pool, borrowMarkets[i], user) != 0
    {
      for i := 0 to |borrowMarkets|
        invariant forall j :: 0 <= j < i ==> Debt(pool, borrowMarkets[j], user) == 0
      {
        if Debt(pool, borrowMarkets[i], user) != 0 {
          return false;
        }
      }
      clear := true;
    }

    /// The checks, the orders, and the check that nothing is owed afterwards.
    method LiquidationSteps(now: nat, rates: map<MarketId, nat>, liquidator: Account, user: Account, orders: seq<Order>,
                            borrowMarkets: seq<MarketId>) returns (status: Status)
      modifies this`pool
      ensures match Liquidations.LiquidateAccount(old(pool), Access(user), now, rates, liquidator, user, borrowMarkets, orders)
        case Done(p) => status == Ok && pool == p
        case Revert(e) => status == Failed(e)
    {
      var snapshot := GetHypotheticalLiquiditySnapshot(Positions(pool, user, borrowMarkets), LiquidationThreshold, NoEffect);
      if snapshot.Revert? {
        return Failed(snapshot.error);
      }
      var check := LiquidationCheck(snapshot.value, pool.minLiquidatableCollateral, pool.incentive);
      if check.Revert? {
        return Failed(check.error);
      }
      status := LiquidateInTurn(now, rates, liquidator, user, orders);
      if status != Ok {
        return;
      }
      var clear := OwesNothing(user, borrowMarkets);
      if !clear {
        return Failed(NotFullyPaid);
      }
    }

    method LiquidateAccount(now: nat, rates: map<MarketId, nat>, liquidator: Account, user: Account, orders: seq<Order>)
      returns (status: Status)
      requires Valid()
      modifies this`pool
      ensures Valid()
      ensures Agrees(Liquidations.LiquidateAccount(old(pool), Access(user), now, rates, liquidator, user,
                                                   PoolRuns.AssetsOf(old(State()), user), orders),
                     old(pool), status, pool)
      ensures status == Ok ==> MayLiquidate(old(pool), user, PoolRuns.AssetsOf(old(State()), user))
    {
      var saved := pool;
      var borrowMarkets := GetAssetsIn(user);
      LiquidatedWasOpen(pool, Access(user), now, rates, liquidator, user, borrowMarkets, orders);
      LiquidationKeepsValid(State(), now, rates, liquidator, user, orders);
      status := LiquidationSteps(now, rates, liquidator, user, orders, borrowMarkets);
      if status != Ok {
        pool := saved;
      }
    }
  }

  lemma LiquidationKeepsValid(s: PoolRuns.State, now: nat, rates: map<MarketId, nat>, liquidator: Account, user: Account,
                              orders: seq<Order>)
    requires PoolRuns.Valid(s)
    ensures var r := Liquidations.LiquidateAccount(s.pool, PoolRuns.AccessOf(s.lists, user), now, rates, liquidator, user,
                                                   PoolRuns.AssetsOf(s, user), orders);
      r.Done? ==> PoolRuns.Valid(PoolRuns.State(s.lists, r.value))
  {
    var r := Liquidations.LiquidateAccount(s.pool, PoolRuns.AccessOf(s.lists, user), now, rates, liquidator, user,
                                           PoolRuns.AssetsOf(s, user), orders);
    if r.Done? {
      PoolRuns.LiquidateKeepsValid(s, now, rates, liquidator, user, orders);
    }
  }

  predicate Cleared(p: Pool, user: Account, assets: seq<MarketId>) {
    forall mk | mk in assets :: Tokens(p, mk, user) == 0 && Debt(p, mk, user) == 0
  }

  lemma HealingKeepsValid(s: PoolRuns.State, now: nat, rates: map<MarketId, nat>, liquidator: Account, user: Account,
                          fees: map<MarketId, nat>)
    requires PoolRuns.Valid(s)
    ensures var healed := SmallAccounts.HealAccount(s.pool, now, rates, liquidator, user, PoolRuns.AssetsOf(s, user), fees);
      healed.Done? ==> PoolRuns.Valid(PoolRuns.State(s.lists, healed.value))
  {
    if SmallAccounts.HealAccount(s.pool, now, rates, liquidator, user, PoolRuns.AssetsOf(s, user), fees).Done? {
      PoolRuns.HealKeepsValid(s, now, rates, liquidator, user, fees);
    }
  }

  lemma HealingClears(s: PoolRuns.State, now: nat, rates: map<MarketId, nat>, liquidator: Account, user: Account, fees: map<MarketId, nat>)
    requires PoolRuns.Valid(s)
    ensures var assets := PoolRuns.AssetsOf(s, user);
      var healed := SmallAccounts.HealAccount(s.pool, now, rates, liquidator, user, assets, fees);
      healed.Done? ==> Cleared(healed.value, user, assets)
  {
    var assets := PoolRuns.AssetsOf(s, user);
    var healed := SmallAccounts.HealAccount(s.pool, now, rates, liquidator, user, assets, fees);
    if healed.Done? {
      PoolRuns.AccountAssets(s, user);
      HealSettles(s.pool, now, rates, liquidator, user, assets, fees);
      var p1 := AccrueAll(s.pool, now, rates, assets).value;
      var percentage := HealPercentage(Health(p1, user, assets).value, s.pool.minLiquidatableCollateral, s.pool.incentive).value;
      forall mk | mk in assets
        ensures Tokens(healed.value, mk, user) == 0 && Debt(healed.value, mk, user) == 0
      {
        assert Healed(MarketOf(p1, mk), MarketOf(healed.value, mk), user, HealPayment(p1, mk, user, percentage, fees));
      }
    }
  }
}

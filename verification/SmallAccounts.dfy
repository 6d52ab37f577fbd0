/** What the Comptroller decides about accounts whose whole collateral is small: which of healing and forced
    liquidation they are open to; and healing, which repays a percentage and writes the rest off. */
module SmallAccounts {
  import opened FixedPoint
  import opened Totals
  import opened Outcomes
  import opened Ledger
  import opened ExchangeRate
  import opened Borrowers
  import opened Operations
  import opened Liquidity
  import opened Pools

  // ---------- the two checks ----------

  /// The part of each borrow that a healer pays: collateral / (borrows * incentive).
  function HealPercentage(s: Snapshot, minimum: nat, incentive: nat): Outcome<nat> {
    if s.totalCollateral > minimum then Revert(CollateralExceedsThreshold)
    else if s.shortfall == 0 then Revert(InsufficientShortfall)
    else
      var scaledBorrows := MulTruncate(s.borrows, incentive);
      if scaledBorrows == 0 then Revert(Panic)
      else
        var percentage := DivTruncate(s.totalCollateral, scaledBorrows);
        if EXP_SCALE < percentage then Revert(CollateralExceedsThreshold) else Done(percentage)
  }

  function LiquidationCheck(s: Snapshot, minimum: nat, incentive: nat): Outcome<()> {
    if s.totalCollateral > minimum then Revert(CollateralExceedsThreshold)
    else if MulTruncate(incentive, s.borrows) >= s.totalCollateral then Revert(InsufficientCollateral)
    else if s.shortfall == 0 then Revert(InsufficientShortfall)
    else Done(())
  }

  lemma PercentageAboveOne(collateral: nat, scaled: nat)
    requires 0 < scaled
    ensures EXP_SCALE < DivTruncate(collateral, scaled)
        <==> scaled <= (collateral - scaled) * EXP_SCALE
  {
    DivBounds(collateral * EXP_SCALE, scaled, EXP_SCALE + 1);
    assert (EXP_SCALE + 1) * scaled == scaled * EXP_SCALE + scaled;
    assert (collateral - scaled) * EXP_SCALE == collateral * EXP_SCALE - scaled * EXP_SCALE;
  }

  lemma BorrowsAtLeast(borrows: nat, incentive: nat)
    requires EXP_SCALE <= incentive
    ensures borrows <= MulTruncate(borrows, incentive) == MulTruncate(incentive, borrows)
  {
    MulLe(EXP_SCALE, incentive, borrows);
    DivBounds(borrows * incentive, EXP_SCALE, borrows);
  }

  lemma ChecksCompared(s: Snapshot, minimum: nat, incentive: nat)
    requires s.shortfall <= s.borrows
    ensures var debt := MulTruncate(incentive, s.borrows);
      var heals, liquidates := HealPercentage(s, minimum, incentive).Done?, LiquidationCheck(s, minimum, incentive).Done?;
      && (liquidates <==> s.totalCollateral <= minimum && 0 < s.shortfall && debt < s.totalCollateral)
      && (heals <==> s.totalCollateral <= minimum && 0 < s.shortfall && (s.totalCollateral - debt) * EXP_SCALE < debt)
      && (EXP_SCALE <= incentive && s.totalCollateral <= minimum && 0 < s.shortfall ==> heals || liquidates)
  {
    var debt := MulTruncate(incentive, s.borrows);
    assert MulTruncate(s.borrows, incentive) == debt by {
      assert s.borrows * incentive == incentive * s.borrows;
    }
    if EXP_SCALE <= incentive {
      BorrowsAtLeast(s.borrows, incentive);
    }
    if 0 < debt {
      PercentageAboveOne(s.totalCollateral, debt);
    }
  }

  /// An account with prices for all its markets whose whole collateral is at most the pool's minimum, and which has
  /// less of it, by the liquidation thresholds, than it owes.
  predicate SmallAndShort(p: Pool, user: Account, assets: seq<MarketId>) {
    var ps := Positions(p, user, assets);
    && Priced(ps) && TotalCollateral(ps) <= p.minLiquidatableCollateral
    && WeightedCollateral(ps, LiquidationThreshold) < Borrows(ps)
  }

  /// What its collateral exceeds the debt with the incentive by; negative is what it lacks.
  function Beyond(p: Pool, user: Account, assets: seq<MarketId>): int {
    TotalCollateral(Positions(p, user, assets)) - MulTruncate(p.incentive, Borrows(Positions(p, user, assets)))
  }

  predicate MayHeal(p: Pool, user: Account, assets: seq<MarketId>) {
    && SmallAndShort(p, user, assets)
    && Beyond(p, user, assets) * EXP_SCALE < MulTruncate(p.incentive, Borrows(Positions(p, user, assets)))
  }

  predicate MayLiquidate(p: Pool, user: Account, assets: seq<MarketId>) {
    SmallAndShort(p, user, assets) && 0 < Beyond(p, user, assets)
  }

  /// Of any account: which of the two calls lets it through. Both need a small account in shortfall, of which at least
  /// one passes; both do exactly when the collateral exceeds the incentivised debt by less than the percentage's
  /// 18 digits can show.
  lemma HealOrLiquidate(p: Pool, user: Account, assets: seq<MarketId>)
    ensures var health := Health(p, user, assets);
      var heals := health.Done? && HealPercentage(health.value, p.minLiquidatableCollateral, p.incentive).Done?;
      var liquidates := health.Done? && LiquidationCheck(health.value, p.minLiquidatableCollateral, p.incentive).Done?;
      && (heals <==> MayHeal(p, user, assets)) && (liquidates <==> MayLiquidate(p, user, assets))
      && (SmallAndShort(p, user, assets) && EXP_SCALE <= p.incentive ==> heals || liquidates)
  {
    NoEffects(Positions(p, user, assets), LiquidationThreshold);
    if Health(p, user, assets).Done? {
      ChecksCompared(Health(p, user, assets).value, p.minLiquidatableCollateral, p.incentive);
    }
  }

  /// The percentage of each borrow that is repaid is the collateral over the incentivised debt, less than its last
  /// digit down.
  lemma PercentageIs(s: Snapshot, minimum: nat, incentive: nat)
    requires HealPercentage(s, minimum, incentive).Done?
    ensures var percentage, debt := HealPercentage(s, minimum, incentive).value, MulTruncate(s.borrows, incentive);
      && percentage <= EXP_SCALE && 0 < debt
      && percentage * debt <= s.totalCollateral * EXP_SCALE < (percentage + 1) * debt
  {
    var debt := MulTruncate(s.borrows, incentive);
    DivBounds(s.totalCollateral * EXP_SCALE, debt, s.totalCollateral * EXP_SCALE / debt);
    DivBounds(s.totalCollateral * EXP_SCALE, debt, s.totalCollateral * EXP_SCALE / debt + 1);
  }

  /// A market in which account 1 has borrowed twice 1e18 against vTokens worth one unit more.
  const SLIVER_MARKET: Market :=
    Market(1, 2 * EXP_SCALE, 0, 0, 2 * EXP_SCALE + 1, EXP_SCALE, 0, 0, map[1 := 2 * EXP_SCALE + 1],
           map[1 := BorrowSnapshot(2 * EXP_SCALE, EXP_SCALE)])

  /// It is the only market of a pool without an incentive, whose collateral does not count.
  const SLIVER_POOL: Pool :=
    Pool(map[1 := SLIVER_MARKET], map[], map[1 := EXP_SCALE], map[], map[], EXP_SCALE, 3 * EXP_SCALE)

  lemma SliverRate(s: Settings)
    ensures ExchangeRateStored(s, SLIVER_MARKET) == Done(EXP_SCALE)
  {
    WrittenBalance(EXP_SCALE, 2 * EXP_SCALE + 1);
    assert Underlying(SLIVER_MARKET) == 2 * EXP_SCALE + 1;
  }

  lemma SliverBalance()
    ensures Balance(SLIVER_MARKET, 1) == 2 * EXP_SCALE
  {
    WrittenBalance(2 * EXP_SCALE, EXP_SCALE);
  }

  lemma SliverInv()
    ensures Inv(SLIVER_MARKET)
  {
    var tokens := Reals(SLIVER_MARKET.accountTokens);
    assert tokens == map[1 := (2 * EXP_SCALE + 1) as real];
    TotalWithout(tokens, 1);
    assert tokens - {1} == map[];
  }

  lemma SliverHealth()
    ensures Health(SLIVER_POOL, 1, [1])
         == Done(Snapshot(2 * EXP_SCALE + 1, 0, 2 * EXP_SCALE, 0, 0, 2 * EXP_SCALE))
  {
    SliverRate(SettingsOf(SLIVER_POOL, 1));
    SliverBalance();
    var p := PositionOf(SLIVER_POOL, 1, 1);
    var ps := Positions(SLIVER_POOL, 1, [1]);
    assert p == Position(1, 2 * EXP_SCALE + 1, 2 * EXP_SCALE, EXP_SCALE, EXP_SCALE, 0, 0);
    assert ps == [p];
    assert VTokenPrice(p) == EXP_SCALE && MulTruncate(0, EXP_SCALE) == 0;
    OneTerm(p, LiquidationThreshold);
    assert MulTruncate(EXP_SCALE, 2 * EXP_SCALE + 1) == 2 * EXP_SCALE + 1;
    assert MulTruncate(EXP_SCALE, 2 * EXP_SCALE) == 2 * EXP_SCALE;
    assert MulTruncate(0, 2 * EXP_SCALE + 1) == 0;
  }

  lemma OneTerm(p: Position, w: Weight)
    ensures TotalCollateral([p]) == MulTruncate(VTokenPrice(p), p.tokens)
    ensures WeightedCollateral([p], w) == MulTruncate(WeightedVTokenPrice(p, w), p.tokens)
    ensures Borrows([p]) == MulTruncate(p.price, p.borrows) && Effects([p], w, NoEffect) == 0
  {
    assert Front([p]) == [] && Last([p]) == p;
    assert TotalCollateral([]) == 0 && WeightedCollateral([], w) == 0 && Borrows([]) == 0 && Effects([], w, NoEffect) == 0;
  }

  lemma SliverMarkets(mk: MarketId)
    ensures MarketOf(SLIVER_POOL, mk) == if mk == 1 then SLIVER_MARKET else NewMarket(0)
  {
  }

  lemma SliverInvAt(mk: MarketId)
    ensures SoundAt(SLIVER_POOL, mk)
  {
    SliverMarkets(mk);
    if mk == 1 {
      SliverInv();
      InvOf(SLIVER_MARKET, MarketOf(SLIVER_POOL, mk));
    } else {
      UnknownIsSound(SLIVER_POOL, mk);
    }
  }

  lemma SliverSound()
    ensures Sound(SLIVER_POOL)
  {
    forall mk
      ensures SoundAt(SLIVER_POOL, mk)
    {
      SliverInvAt(mk);
    }
  }

  /// The sliver is not empty: for this account of a sound pool both checks pass.
  lemma BothMayPass()
    ensures Sound(SLIVER_POOL) && Health(SLIVER_POOL, 1, [1]).Done?
    ensures var s := Health(SLIVER_POOL, 1, [1]).value;
      && HealPercentage(s, SLIVER_POOL.minLiquidatableCollateral, SLIVER_POOL.incentive).Done?
      && LiquidationCheck(s, SLIVER_POOL.minLiquidatableCollateral, SLIVER_POOL.incentive).Done?
  {
    SliverSound();
    SliverHealth();
    assert MulTruncate(EXP_SCALE, 2 * EXP_SCALE) == 2 * EXP_SCALE;
    ChecksCompared(Snapshot(2 * EXP_SCALE + 1, 0, 2 * EXP_SCALE, 0, 0, 2 * EXP_SCALE), 3 * EXP_SCALE, EXP_SCALE);
  }

  // ---------- healing ----------

  function SeizeAll(s: Settings, m: Market, liquidator: Account, user: Account): Outcome<Market> {
    var tokens := Get(m.accountTokens, user);
    if tokens != 0 then Seize(s, m, liquidator, user, tokens) else Done(m)
  }

  /// One market of a heal: all vTokens are seized, part of the borrow is repaid, the rest written off.
  function HealMarket(s: Settings, m: Market, liquidator: Account, user: Account, percentage: nat, fee: nat)
    : Outcome<Market>
  {
    var balance := Balance(m, user);
    match SeizeAll(s, m, liquidator, user)
    case Revert(e) => Revert(e)
    case Done(m1) =>
      if balance != 0 then HealBorrow(m1, user, MulTruncate(percentage, balance), fee) else Done(m1)
  }

  function HealMarkets(p: Pool, liquidator: Account, user: Account, percentage: nat, fees: map<MarketId, nat>,
                       assets: seq<MarketId>): Outcome<Pool>
    decreases |assets|
  {
    if |assets| == 0 then Done(p)
    else
      var mk := assets[0];
      match HealMarket(SettingsOf(p, mk), MarketOf(p, mk), liquidator, user, percentage, Get(fees, mk))
      case Revert(e) => Revert(e)
      case Done(m) =>
        HealMarkets(WithMarket(p, mk, m), liquidator, user, percentage, fees, assets[1..])
  }

  /// Healing in markets that are all up to date.
  function HealFresh(p: Pool, liquidator: Account, user: Account, assets: seq<MarketId>, fees: map<MarketId, nat>)
    : Outcome<Pool>
  {
    match Health(p, user, assets)
    case Revert(e) => Revert(e)
    case Done(s) =>
      match HealPercentage(s, p.minLiquidatableCollateral, p.incentive)
      case Revert(e) => Revert(e)
      case Done(percentage) => HealMarkets(p, liquidator, user, percentage, fees, assets)
  }

  /// Healing an account: its markets accrue first.
  function HealAccount(p: Pool, now: nat, rates: map<MarketId, nat>, liquidator: Account, user: Account,
                       assets: seq<MarketId>, fees: map<MarketId, nat>): Outcome<Pool>
  {
    match AccrueAll(p, now, rates, assets)
    case Revert(e) => Revert(e)
    case Done(p') => HealFresh(p', liquidator, user, assets, fees)
  }

  lemma SeizeAllEffect(s: Settings, m: Market, liquidator: Account, user: Account)
    requires SeizeAll(s, m, liquidator, user).Done?
    ensures var m' := SeizeAll(s, m, liquidator, user).value;
      && Get(m'.accountTokens, user) == 0
      && m'.accountBorrows == m.accountBorrows && m'.borrowIndex == m.borrowIndex
      && m'.totalBorrows == m.totalBorrows && m'.badDebt == m.badDebt
  {
  }

  /// What healing leaves of an account in one market.
  ghost predicate Healed(m: Market, m': Market, user: Account, repaid: nat) {
    && Get(m'.accountTokens, user) == 0
    && Balance(m', user) == 0
    && repaid + (m'.badDebt - m.badDebt) == Balance(m, user) == m.totalBorrows - m'.totalBorrows
    && (forall other | other != user :: Balance(m', other) == Balance(m, other))
  }

  lemma HealMarketEffect(s: Settings, m: Market, liquidator: Account, user: Account, percentage: nat, fee: nat)
    requires HealMarket(s, m, liquidator, user, percentage, fee).Done? && BorrowBalanceStored(m, user).Done?
    ensures Healed(m, HealMarket(s, m, liquidator, user, percentage, fee).value, user,
                   Arrives(MulTruncate(percentage, Balance(m, user)), fee))
    ensures BorrowBalanceStored(HealMarket(s, m, liquidator, user, percentage, fee).value, user).Done?
  {
    SeizeAllEffect(s, m, liquidator, user);
    var m1 := SeizeAll(s, m, liquidator, user).value;
    SameBorrowsSameBalances(m, m1);
    if Balance(m, user) == 0 {
      assert MulTruncate(percentage, 0) == 0;
    } else {
      HealBorrowEffect(m1, user, MulTruncate(percentage, Balance(m, user)), fee);
    }
  }

  lemma HealBorrowEffect(m: Market, user: Account, amount: nat, fee: nat)
    requires HealBorrow(m, user, amount, fee).Done?
    ensures var m' := HealBorrow(m, user, amount, fee).value;
      && m'.accountTokens == m.accountTokens && Balance(m', user) == 0
      && Arrives(amount, fee) + (m'.badDebt - m.badDebt) == Balance(m, user) == m.totalBorrows - m'.totalBorrows
      && (forall other | other != user :: Balance(m', other) == Balance(m, other))
  {
  }

  /// What reaches a market from the healer.
  function HealPayment(p: Pool, mk: MarketId, user: Account, percentage: nat, fees: map<MarketId, nat>): nat {
    Arrives(MulTruncate(percentage, Debt(p, mk, user)), Get(fees, mk))
  }

  lemma HealMarketKeepsInv(s: AllowedSettings, m: Market, liquidator: Account, user: Account, percentage: nat, fee: nat)
    requires Inv(m) && HealMarket(s, m, liquidator, user, percentage, fee).Done?
    ensures Inv(HealMarket(s, m, liquidator, user, percentage, fee).value)
  {
    var tokens := Get(m.accountTokens, user);
    var m1 := SeizeAll(s, m, liquidator, user).value;
    StepKeeps(m, Step(s, 0, SeizeCollateral(liquidator, user, tokens)));
    StepKeeps(m1, Step(s, 0, Heal(user, MulTruncate(percentage, Balance(m, user)), fee)));
  }

  lemma {:induction false} HealMarketsKeepSound(p: Pool, liquidator: Account, user: Account, percentage: nat,
                                                fees: map<MarketId, nat>, assets: seq<MarketId>)
    requires Sound(p) && HealMarkets(p, liquidator, user, percentage, fees, assets).Done?
    ensures Sound(HealMarkets(p, liquidator, user, percentage, fees, assets).value)
    decreases |assets|
  {
    if |assets| > 0 {
      var mk := assets[0];
      var m := HealMarket(SettingsOf(p, mk), MarketOf(p, mk), liquidator, user, percentage, Get(fees, mk)).value;
      assert SoundAt(p, mk);
      HealMarketKeepsInv(SettingsOf(p, mk), MarketOf(p, mk), liquidator, user, percentage, Get(fees, mk));
      OneMarketSound(p, mk, m);
      HealMarketsKeepSound(WithMarket(p, mk, m), liquidator, user, percentage, fees, assets[1..]);
    }
  }

  /// Healing leaves every market's own invariant intact: tokens conserved, claims backed.
  lemma FreshHealKeepsSound(p: Pool, liquidator: Account, user: Account, assets: seq<MarketId>, fees: map<MarketId, nat>)
    requires Sound(p) && HealFresh(p, liquidator, user, assets, fees).Done?
    ensures Sound(HealFresh(p, liquidator, user, assets, fees).value)
  {
    var percentage := HealPercentage(Health(p, user, assets).value, p.minLiquidatableCollateral, p.incentive).value;
    HealMarketsKeepSound(p, liquidator, user, percentage, fees, assets);
  }

  /// In each of its markets, what the healer pays and the new bad debt make up the old borrow, nothing is owed
  /// and no vTokens are left; no other market changes.
  ghost predicate AccountSettled(p: Pool, p': Pool, user: Account, assets: seq<MarketId>, percentage: nat, fees: map<MarketId, nat>) {
    && (forall mk | mk in assets ::
         Healed(MarketOf(p, mk), MarketOf(p', mk), user, HealPayment(p, mk, user, percentage, fees)))
    && (forall mk | mk !in assets :: MarketOf(p', mk) == MarketOf(p, mk))
  }

  lemma {:induction false} HealMarketsEffect(p: Pool, liquidator: Account, user: Account, percentage: nat,
                                             fees: map<MarketId, nat>, assets: seq<MarketId>)
    requires DistinctAssets(assets) && Readable(p, user)
    requires HealMarkets(p, liquidator, user, percentage, fees, assets).Done?
    ensures AccountSettled(p, HealMarkets(p, liquidator, user, percentage, fees, assets).value, user, assets, percentage, fees)
    decreases |assets|
  {
    if |assets| > 0 {
      var mk := assets[0];
      var m := HealMarket(SettingsOf(p, mk), MarketOf(p, mk), liquidator, user, percentage, Get(fees, mk)).value;
      var p1 := WithMarket(p, mk, m);
      HealMarketEffect(SettingsOf(p, mk), MarketOf(p, mk), liquidator, user, percentage, Get(fees, mk));
      StillReadable(p, mk, m, user, HealPayment(p, mk, user, percentage, fees));
      HealMarketsEffect(p1, liquidator, user, percentage, fees, assets[1..]);
      SettledFirst(p, m, HealMarkets(p1, liquidator, user, percentage, fees, assets[1..]).value, user, assets, percentage, fees);
    }
  }

  lemma StillReadable(p: Pool, mk: MarketId, m: Market, user: Account, repaid: nat)
    requires Readable(p, user) && Healed(MarketOf(p, mk), m, user, repaid) && BorrowBalanceStored(m, user).Done?
    ensures Readable(WithMarket(p, mk, m), user)
  {
    forall other
      ensures BorrowBalanceStored(MarketOf(WithMarket(p, mk, m), other), user).Done?
    {
      MarketOfWith(p, mk, m, other);
    }
  }

  /// Settling one market and then the others settles them all.
  lemma SettledFirst(p: Pool, m: Market, p': Pool, user: Account, assets: seq<MarketId>, percentage: nat, fees: map<MarketId, nat>)
    requires |assets| > 0 && DistinctAssets(assets)
    requires Healed(MarketOf(p, assets[0]), m, user, HealPayment(p, assets[0], user, percentage, fees))
    requires AccountSettled(WithMarket(p, assets[0], m), p', user, assets[1..], percentage, fees)
    ensures AccountSettled(p, p', user, assets, percentage, fees)
  {
    var mk, p1 := assets[0], WithMarket(p, assets[0], m);
    assert mk !in assets[1..];
    forall other
      ensures MarketOf(p1, other) == if other == mk then m else MarketOf(p, other)
    {
      MarketOfWith(p, mk, m, other);
    }
    assert forall other :: other in assets <==> other == mk || other in assets[1..];
    forall other | other in assets[1..]
      ensures HealPayment(p1, other, user, percentage, fees) == HealPayment(p, other, user, percentage, fees)
    {
      assert other != mk;
    }
  }

  /// Healing settles the account: in each of its markets, what the healer pays and the new bad debt make up
  /// the old borrow, nothing is owed and no vTokens are left; nobody else's borrow and no other market
  /// changes; and at 100 percent, with nothing kept by the tokens, there is no new bad debt.
  lemma FreshHealSettles(p: Pool, liquidator: Account, user: Account, assets: seq<MarketId>, fees: map<MarketId, nat>)
    requires DistinctAssets(assets) && Readable(p, user) && HealFresh(p, liquidator, user, assets, fees).Done?
    ensures Health(p, user, assets).Done?
    ensures var percentage := HealPercentage(Health(p, user, assets).value, p.minLiquidatableCollateral, p.incentive);
      var p' := HealFresh(p, liquidator, user, assets, fees).value;
      && percentage.Done? && percentage.value <= EXP_SCALE
      && AccountSettled(p, p', user, assets, percentage.value, fees)
      && (percentage.value == EXP_SCALE && fees == map[] ==>
            forall mk :: MarketOf(p', mk).badDebt == MarketOf(p, mk).badDebt)
  {
    var percentage := HealPercentage(Health(p, user, assets).value, p.minLiquidatableCollateral, p.incentive).value;
    HealMarketsEffect(p, liquidator, user, percentage, fees, assets);
    if percentage == EXP_SCALE && fees == map[] {
      var p' := HealFresh(p, liquidator, user, assets, fees).value;
      forall mk
        ensures MarketOf(p', mk).badDebt == MarketOf(p, mk).badDebt
      {
        if mk in assets {
          WholePayment(p, mk, user);
        }
      }
    }
  }

  lemma WholePayment(p: Pool, mk: MarketId, user: Account)
    ensures HealPayment(p, mk, user, EXP_SCALE, map[]) == Debt(p, mk, user)
  {
  }

  /// Healing an account of a sound pool: once its markets have accrued, the account is settled as said, and
  /// every market keeps its own invariant.
  lemma HealSettles(p: Pool, now: nat, rates: map<MarketId, nat>, liquidator: Account, user: Account,
                    assets: seq<MarketId>, fees: map<MarketId, nat>)
    requires DistinctAssets(assets) && Sound(p) && HealAccount(p, now, rates, liquidator, user, assets, fees).Done?
    ensures AccrueAll(p, now, rates, assets).Done?
    ensures var p1, p' := AccrueAll(p, now, rates, assets).value, HealAccount(p, now, rates, liquidator, user, assets, fees).value;
      && OnlyInterest(p, p1) && Sound(p') && Health(p1, user, assets).Done?
      && var percentage := HealPercentage(Health(p1, user, assets).value, p.minLiquidatableCollateral, p.incentive);
         && percentage.Done? && percentage.value <= EXP_SCALE
         && AccountSettled(p1, p', user, assets, percentage.value, fees)
         && (percentage.value == EXP_SCALE && fees == map[] ==>
               forall mk :: MarketOf(p', mk).badDebt == MarketOf(p, mk).badDebt)
  {
    AccrueAllKeeps(p, now, rates, assets);
    var p1 := AccrueAll(p, now, rates, assets).value;
    SoundIsReadable(p1, user);
    FreshHealSettles(p1, liquidator, user, assets, fees);
    FreshHealKeepsSound(p1, liquidator, user, assets, fees);
  }

  /// Who is healed was open to it once the markets had accrued; and who was open to it is healed for the percentage of
  /// PercentageIs, market by market.
  lemma HealedWasOpen(p: Pool, now: nat, rates: map<MarketId, nat>, liquidator: Account, user: Account,
                      assets: seq<MarketId>, fees: map<MarketId, nat>)
    requires AccrueAll(p, now, rates, assets).Done?
    ensures var p1, healed := AccrueAll(p, now, rates, assets).value, HealAccount(p, now, rates, liquidator, user, assets, fees);
      && (healed.Done? ==> MayHeal(p1, user, assets))
      && (MayHeal(p1, user, assets) ==>
            var percentage := HealPercentage(Health(p1, user, assets).value, p1.minLiquidatableCollateral, p1.incentive);
            percentage.Done? && healed == HealMarkets(p1, liquidator, user, percentage.value, fees, assets))
  {
    var p1 := AccrueAll(p, now, rates, assets).value;
    HealOrLiquidate(p1, user, assets);
  }

  /// One market is healed exactly when the account's tokens can be seized, and what arrives is at most what it owes and
  /// that at most totalBorrows.
  lemma HealMarketPasses(s: Settings, m: Market, liquidator: Account, user: Account, percentage: nat, fee: nat)
    requires Inv(m) && 0 < s.liquidationIncentive
    ensures ExchangeRateStored(s, m).Done?
    ensures var tokens, owed := Get(m.accountTokens, user), Balance(m, user);
      var toProtocol := ProtocolSeizeTokens(s, tokens);
      HealMarket(s, m, liquidator, user, percentage, fee).Done? <==>
        (&& (tokens != 0 ==>
               liquidator != user && toProtocol <= tokens && ExchangeRateStored(s, m).value * toProtocol / EXP_SCALE <= m.cash)
         && (owed != 0 ==> Arrives(MulTruncate(percentage, owed), fee) <= owed <= m.totalBorrows))
  {
    SeizePasses(s, m, liquidator, user, Get(m.accountTokens, user));
    if SeizeAll(s, m, liquidator, user).Done? {
      SeizeAllEffect(s, m, liquidator, user);
      SameBorrowsSameBalances(m, SeizeAll(s, m, liquidator, user).value);
      HealPasses(m, SeizeAll(s, m, liquidator, user).value, user, MulTruncate(percentage, Balance(m, user)), fee);
    }
  }

  lemma HealPasses(m: Market, m1: Market, user: Account, amount: nat, fee: nat)
    requires Inv(m) && m1.accountBorrows == m.accountBorrows && m1.borrowIndex == m.borrowIndex && m1.totalBorrows == m.totalBorrows
    ensures HealBorrow(m1, user, amount, fee).Done? <==> Arrives(amount, fee) <= Balance(m, user) <= m.totalBorrows
  {
    BalanceIsFloor(m, user);
  }

  // ---------- what healing costs ----------

  /// The exact value, times 1e18, of what the healer is asked to pay.
  function HealCost(ps: seq<Position>, percentage: nat): nat {
    if |ps| == 0 then 0
    else HealCost(Front(ps), percentage) + Last(ps).price * MulTruncate(percentage, Last(ps).borrows)
  }

  lemma CostOfOne(price: nat, borrows: nat, percentage: nat)
    ensures price * MulTruncate(percentage, borrows) <= percentage * (MulTruncate(price, borrows) + 1)
  {
    var repay, value := MulTruncate(percentage, borrows), MulTruncate(price, borrows);
    DivBounds(percentage * borrows, EXP_SCALE, repay);
    DivBounds(price * borrows, EXP_SCALE, value + 1);
    MulLe(repay * EXP_SCALE, percentage * borrows, price);
    MulLe(price * borrows, (value + 1) * EXP_SCALE, percentage);
    assert repay * EXP_SCALE * price == price * repay * EXP_SCALE;
    assert percentage * borrows * price == price * borrows * percentage;
    assert (value + 1) * EXP_SCALE * percentage == percentage * (value + 1) * EXP_SCALE;
  }

  lemma {:induction false} CostWithinBorrows(ps: seq<Position>, percentage: nat)
    ensures HealCost(ps, percentage) <= percentage * (Borrows(ps) + |ps|)
    decreases |ps|
  {
    if |ps| > 0 {
      var last := Last(ps);
      CostWithinBorrows(Front(ps), percentage);
      CostOfOne(last.price, last.borrows, percentage);
      AddTerms(percentage, Borrows(Front(ps)) + |Front(ps)|, MulTruncate(last.price, last.borrows) + 1);
    }
  }

  lemma AddTerms(c: nat, x: nat, y: nat)
    ensures c * (x + y) == c * x + c * y
  {
  }

  lemma CostArithmetic(cost: nat, percentage: nat, borrows: nat, n: nat, incentive: nat, scaled: nat, collateral: nat)
    requires cost <= percentage * (borrows + n) && percentage <= EXP_SCALE
    requires percentage * scaled <= collateral * EXP_SCALE
    requires borrows * incentive <= (scaled + 1) * EXP_SCALE
    ensures cost * incentive <= (collateral + 1) * EXP_SCALE * EXP_SCALE + n * incentive * EXP_SCALE
  {
    MulLe(cost, percentage * (borrows + n), incentive);
    assert percentage * (borrows + n) * incentive == borrows * incentive * percentage + n * incentive * percentage;
    MulLe(borrows * incentive, (scaled + 1) * EXP_SCALE, percentage);
    assert (scaled + 1) * EXP_SCALE * percentage == percentage * scaled * EXP_SCALE + percentage * EXP_SCALE;
    MulLe(percentage * scaled, collateral * EXP_SCALE, EXP_SCALE);
    CommuteLe(percentage, EXP_SCALE, n * incentive);
  }

  lemma CommuteLe(a: nat, b: nat, c: nat)
    requires a <= b
    ensures c * a <= c * b
  {
  }

  /// One unit of each token.
  function UnitPrices(ps: seq<Position>): nat {
    if |ps| == 0 then 0 else UnitPrices(Front(ps)) + Last(ps).price
  }

  lemma CostOfOneAtLeast(price: nat, borrows: nat, percentage: nat)
    ensures percentage * MulTruncate(price, borrows) <= price * MulTruncate(percentage, borrows) + price
  {
    var repay, value := MulTruncate(percentage, borrows), MulTruncate(price, borrows);
    DivBounds(percentage * borrows, EXP_SCALE, repay + 1);
    DivBounds(price * borrows, EXP_SCALE, value);
    MulLe(percentage * borrows, (repay + 1) * EXP_SCALE, price);
    MulLe(value * EXP_SCALE, price * borrows, percentage);
    assert percentage * borrows * price == price * borrows * percentage;
    assert (repay + 1) * EXP_SCALE * price == (price * repay + price) * EXP_SCALE;
    assert value * EXP_SCALE * percentage == percentage * value * EXP_SCALE;
  }

  lemma {:induction false} CostAtLeast(ps: seq<Position>, percentage: nat)
    ensures percentage * Borrows(ps) <= HealCost(ps, percentage) + UnitPrices(ps)
    decreases |ps|
  {
    if |ps| > 0 {
      var last := Last(ps);
      CostAtLeast(Front(ps), percentage);
      CostOfOneAtLeast(last.price, last.borrows, percentage);
      AddTerms(percentage, Borrows(Front(ps)), MulTruncate(last.price, last.borrows));
    }
  }

  lemma PaidArithmetic(cost: nat, units: nat, percentage: nat, borrows: nat, incentive: nat, scaled: nat, collateral: nat)
    requires percentage * borrows <= cost + units
    requires collateral * EXP_SCALE < (percentage + 1) * scaled
    requires scaled * EXP_SCALE <= borrows * incentive
    ensures collateral * EXP_SCALE * EXP_SCALE <= (cost + units + borrows) * incentive
  {
    MulLe(collateral * EXP_SCALE, (percentage + 1) * scaled, EXP_SCALE);
    MulLe(scaled * EXP_SCALE, borrows * incentive, percentage + 1);
    assert (percentage + 1) * scaled * EXP_SCALE == scaled * EXP_SCALE * (percentage + 1);
    assert borrows * incentive * (percentage + 1) == (percentage * borrows + borrows) * incentive;
    MulLe(percentage * borrows + borrows, cost + units + borrows, incentive);
  }

  /// And at least that, short of one unit of each token and of the percentage's last digit of the borrows.
  lemma HealerPaysForCollateral(p: Pool, user: Account, assets: seq<MarketId>)
    requires Health(p, user, assets).Done?
    requires HealPercentage(Health(p, user, assets).value, p.minLiquidatableCollateral, p.incentive).Done?
    ensures var s, ps := Health(p, user, assets).value, Positions(p, user, assets);
      var percentage := HealPercentage(s, p.minLiquidatableCollateral, p.incentive).value;
      s.totalCollateral * EXP_SCALE * EXP_SCALE
        <= (HealCost(ps, percentage) + UnitPrices(ps) + s.borrows) * p.incentive
  {
    var ps, s := Positions(p, user, assets), Health(p, user, assets).value;
    var scaled := MulTruncate(s.borrows, p.incentive);
    var percentage := HealPercentage(s, p.minLiquidatableCollateral, p.incentive).value;
    CostAtLeast(ps, percentage);
    DivBounds(s.totalCollateral * EXP_SCALE, scaled, percentage + 1);
    DivBounds(s.borrows * p.incentive, EXP_SCALE, scaled);
    PaidArithmetic(HealCost(ps, percentage), UnitPrices(ps), percentage, s.borrows, p.incentive, scaled, s.totalCollateral);
  }

  /// What the healer pays, with the incentive on top, is at most the collateral seized, up to one unit and
  /// one incentivised unit for each market.
  lemma HealerNeverOverpays(p: Pool, user: Account, assets: seq<MarketId>)
    requires Health(p, user, assets).Done?
    requires HealPercentage(Health(p, user, assets).value, p.minLiquidatableCollateral, p.incentive).Done?
    ensures var s := Health(p, user, assets).value;
      var percentage := HealPercentage(s, p.minLiquidatableCollateral, p.incentive).value;
      HealCost(Positions(p, user, assets), percentage) * p.incentive
        <= (s.totalCollateral + 1) * EXP_SCALE * EXP_SCALE + |assets| * p.incentive * EXP_SCALE
  {
    var ps, s := Positions(p, user, assets), Health(p, user, assets).value;
    var scaled := MulTruncate(s.borrows, p.incentive);
    var percentage := HealPercentage(s, p.minLiquidatableCollateral, p.incentive).value;
    CostWithinBorrows(ps, percentage);
    DivBounds(s.totalCollateral * EXP_SCALE, scaled, percentage);
    DivBounds(s.borrows * p.incentive, EXP_SCALE, scaled + 1);
    CostArithmetic(HealCost(ps, percentage), percentage, s.borrows, |ps|, p.incentive, scaled, s.totalCollateral);
  }
}

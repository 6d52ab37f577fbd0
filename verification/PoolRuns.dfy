/** A Comptroller's pool as a state machine: memberships, factors and markets together, over every run of what
    users, governance and the markets themselves do. */
module PoolRuns {
  import opened FixedPoint
  import opened Totals
  import opened Outcomes
  import opened Ledger
  import opened ExchangeRate
  import opened Liquidity
  import opened Pools
  import opened SmallAccounts
  import opened Liquidations
  import AssetLists

  const MAX_COLLATERAL_FACTOR: nat := 950_000_000_000_000_000

  datatype State = State(lists: AssetLists.Lists, pool: Pool)

  /// The markets of an account that count.
  function AssetsOf(s: State, a: Account): seq<MarketId> {
    AssetLists.AssetsIn(s.lists.listed, AssetLists.ListOf(s.lists, a))
  }

  /// The check before an account redeems or borrows.
  function CheckEffect(s: State, a: Account, e: Effect): Outcome<()> {
    var ps := Positions(s.pool, a, AssetsOf(s, a));
    if !Priced(ps) then Revert(PriceError)
    else if SnapshotOf(ps, CollateralFactor, e).shortfall > 0 then Revert(InsufficientLiquidity)
    else Done(())
  }

  /// Whether an account may give up vTokens: whoever is not in the market may, others after a liquidity check.
  function CheckRedeemAllowed(s: State, mk: MarketId, a: Account, tokens: nat): Outcome<()> {
    if mk !in s.lists.listed then Revert(MarketNotListed)
    else if (mk, a) !in s.lists.members then Done(())
    else CheckEffect(s, a, InMarket(mk, tokens, 0))
  }

  function AccessOf(lists: AssetLists.Lists, a: Account): Access {
    Access(lists.listed, set mk | mk in lists.listed && (mk, a) in lists.members)
  }

  function ExitMarket(s: State, mk: MarketId, a: Account, paused: bool): Outcome<State> {
    match AssetLists.ExitMarket(s.lists, mk, a, paused, Debt(s.pool, mk, a),
                                CheckEffect(s, a, InMarket(mk, Tokens(s.pool, mk, a), 0)))
    case Revert(e) => Revert(e)
    case Done(lists) => Done(s.(lists := lists))
  }

  function SetFactors(p: Pool, mk: MarketId, collateralFactor: nat, threshold: nat): Pool {
    p.(collateralFactors := p.collateralFactors[mk := collateralFactor], thresholds := p.thresholds[mk := threshold])
  }

  function SetCollateralFactor(s: State, mk: MarketId, collateralFactor: nat, threshold: nat): Outcome<State> {
    if mk !in s.lists.listed then Revert(MarketNotListed)
    else if collateralFactor > MAX_COLLATERAL_FACTOR then Revert(InvalidCollateralFactor)
    else if threshold > EXP_SCALE || threshold < collateralFactor then Revert(InvalidLiquidationThreshold)
    else if collateralFactor != 0 && Get(s.pool.prices, mk) == 0 then Revert(PriceError)
    else Done(s.(pool := SetFactors(s.pool, mk, collateralFactor, threshold)))
  }

  /// A market newly supported counts for nothing at first.
  function SupportMarket(s: State, mk: MarketId): Outcome<State> {
    match AssetLists.SupportMarket(s.lists, mk)
    case Revert(e) => Revert(e)
    case Done(lists) => Done(State(lists, SetFactors(s.pool, mk, 0, 0)))
  }

  datatype Event =
    | Enter(mks: seq<MarketId>, account: Account, pausedMarkets: set<MarketId>)
    | Exit(market: MarketId, account: Account, paused: bool)
    | BorrowHook(market: MarketId, account: Account, fromMarket: bool, paused: bool)
    | Unlist(market: MarketId, pausedActions: set<AssetLists.Pausable>, borrowCap: nat, supplyCap: nat)
    | Support(market: MarketId)
    | Factors(market: MarketId, collateralFactor: nat, threshold: nat)
    | Price(market: MarketId, price: nat)
    | Incentive(incentive: nat)
    | Minimum(collateral: nat)
    | Call(market: MarketId, now: nat, action: Action, pausedActions: set<AssetLists.Pausable>)
    | Heal(now: nat, rates: map<MarketId, nat>, liquidator: Account, account: Account, fees: map<MarketId, nat>)
    | Liquidate(now: nat, rates: map<MarketId, nat>, liquidator: Account, account: Account, orders: seq<Order>)

  function OnLists(s: State, lists: Outcome<AssetLists.Lists>): Outcome<State> {
    match lists
    case Revert(e) => Revert(e)
    case Done(l) => Done(s.(lists := l))
  }

  function OnPool(s: State, pool: Outcome<Pool>): Outcome<State> {
    match pool
    case Revert(e) => Revert(e)
    case Done(p) => Done(s.(pool := p))
  }

  // ---------- calls of a market and what the comptroller says to them ----------

  /// The vTokens that a redeem takes, as far as the market knows before it asks the comptroller.
  function TokensToRedeem(s: Settings, m: Market, now: nat, tokensIn: nat, amountIn: nat): Outcome<nat> {
    if tokensIn != 0 && amountIn != 0 then Revert(OneOfRedeemInputsMustBeZero)
    else if m.accrualBlock != now then Revert(FreshnessCheck)
    else match ExchangeRateStored(s, m)
      case Revert(e) => Revert(e)
      case Done(rate) =>
        if tokensIn == 0 && rate == 0 then Revert(Panic)
        else
          var tokens := if tokensIn > 0 then tokensIn else TokensForAmount(rate, amountIn);
          if MulTruncate(rate, tokens) == 0 then Revert(RedeemAmountIsZero) else Done(tokens)
  }

  function Passed(s: State, check: Outcome<()>): Outcome<State> {
    match check
    case Revert(e) => Revert(e)
    case Done(_) => Done(s)
  }

  function Listed(s: State, mk: MarketId): Outcome<State> {
    if mk !in s.lists.listed then Revert(MarketNotListed) else Done(s)
  }

  /// The borrower enters the market, unless a member, and must be able to carry the borrow.
  function PreBorrow(s: State, mk: MarketId, a: Account, amount: nat, enteringPaused: bool): Outcome<State> {
    match AssetLists.BorrowHook(s.lists, mk, a, true, enteringPaused)
    case Revert(e) => Revert(e)
    case Done(lists) =>
      var entered := s.(lists := lists);
      if Get(s.pool.prices, mk) == 0 then Revert(PriceError)
      else Passed(entered, CheckEffect(entered, a, InMarket(mk, 0, amount)))
  }

  function PreSeize(s: State, mk: MarketId, a: Account): Outcome<State> {
    if mk !in s.lists.listed then Revert(MarketNotListed)
    else if (mk, a) !in s.lists.members then Revert(MarketNotCollateral)
    else Done(s)
  }

  /// The action that the comptroller may have paused, if it is asked at all.
  function ActionOf(action: Action): set<AssetLists.Pausable> {
    match action
    case Mint(_, _, _) => {AssetLists.MINT}
    case Redeem(_, _, _) => {AssetLists.REDEEM}
    case Transfer(_, _, _) => {AssetLists.TRANSFER}
    case Borrow(_, _) => {AssetLists.BORROW}
    case Repay(_, _, _) => {AssetLists.REPAY}
    case Heal(_, amount, _) => if amount != 0 then {AssetLists.REPAY} else {}
    case SeizeCollateral(_, _, _) => {AssetLists.SEIZE}
    case _ => {}
  }

  /// What the comptroller makes of a call before the market goes on with it.
  function Hook(s: State, mk: MarketId, action: Action, tokens: nat, paused: set<AssetLists.Pausable>): Outcome<State> {
    if ActionOf(action) * paused != {} then Revert(ActionPaused)
    else match action
      case Mint(_, _, _) => Listed(s, mk)
      case Redeem(redeemer, _, _) => Passed(s, CheckRedeemAllowed(s, mk, redeemer, tokens))
      case Transfer(src, _, amount) => Passed(s, CheckRedeemAllowed(s, mk, src, amount))
      case Borrow(borrower, amount) => PreBorrow(s, mk, borrower, amount, AssetLists.ENTER_MARKET in paused)
      case Repay(_, _, _) => Listed(s, mk)
      case Heal(_, amount, _) => if amount != 0 then Listed(s, mk) else Done(s)
      case SeizeCollateral(_, borrower, _) => PreSeize(s, mk, borrower)
      case _ => Done(s)
  }

  function HookedTokens(p: Pool, mk: MarketId, now: nat, action: Action): Outcome<nat> {
    match action
    case Redeem(_, tokensIn, amountIn) => TokensToRedeem(SettingsOf(p, mk), MarketOf(p, mk), now, tokensIn, amountIn)
    case _ => Done(0)
  }

  /// The market's own part of a call.
  function ApplyTo(p: Pool, mk: MarketId, now: nat, action: Action): Outcome<Pool> {
    match Apply(MarketOf(p, mk), Step(SettingsOf(p, mk), now, action))
    case Revert(e) => Revert(e)
    case Done(m) => Done(WithMarket(p, mk, m))
  }

  /// A call of a market. A redeem asks the comptroller once it knows its vTokens, every other call at its head.
  function CallMarket(s: State, mk: MarketId, now: nat, action: Action, paused: set<AssetLists.Pausable>): Outcome<State> {
    match HookedTokens(s.pool, mk, now, action)
    case Revert(e) => Revert(e)
    case Done(tokens) =>
      match Hook(s, mk, action, tokens, paused)
      case Revert(e) => Revert(e)
      case Done(s1) => OnPool(s1, ApplyTo(s1.pool, mk, now, action))
  }

  function Next(s: State, e: Event): Outcome<State> {
    match e
    case Enter(mks, a, paused) => OnLists(s, AssetLists.EnterMarkets(s.lists, mks, a, paused))
    case Exit(mk, a, paused) => ExitMarket(s, mk, a, paused)
    case BorrowHook(mk, a, fromMarket, paused) => OnLists(s, AssetLists.BorrowHook(s.lists, mk, a, fromMarket, paused))
    case Unlist(mk, paused, borrowCap, supplyCap) =>
      OnLists(s, AssetLists.UnlistMarket(s.lists, mk,
                   AssetLists.Controls(paused, borrowCap, supplyCap, Get(s.pool.collateralFactors, mk))))
    case Support(mk) => SupportMarket(s, mk)
    case Factors(mk, collateralFactor, threshold) => SetCollateralFactor(s, mk, collateralFactor, threshold)
    case Price(mk, price) => Done(s.(pool := s.pool.(prices := s.pool.prices[mk := price])))
    case Incentive(incentive) =>
      if incentive < EXP_SCALE then Revert(IncentiveTooLow) else Done(s.(pool := s.pool.(incentive := incentive)))
    case Minimum(collateral) => Done(s.(pool := s.pool.(minLiquidatableCollateral := collateral)))
    case Call(mk, now, action, paused) => CallMarket(s, mk, now, action, paused)
    case Heal(now, rates, liquidator, a, fees) =>
      OnPool(s, HealAccount(s.pool, now, rates, liquidator, a, AssetsOf(s, a), fees))
    case Liquidate(now, rates, liquidator, a, orders) =>
      OnPool(s, LiquidateAccount(s.pool, AccessOf(s.lists, a), now, rates, liquidator, a, AssetsOf(s, a), orders))
  }

  function After(s: State, e: Event): State {
    match Next(s, e)
    case Done(s') => s'
    case Revert(_) => s
  }

  function Run(s: State, events: seq<Event>): State
    decreases |events|
  {
    if |events| == 0 then s else Run(After(s, events[0]), events[1..])
  }

  /// A Comptroller as deployed: no markets yet.
  function Deployed(settings: map<MarketId, AllowedSettings>, prices: map<MarketId, nat>, incentive: nat, minimum: nat): State {
    State(AssetLists.NO_MARKETS, Pool(map[], settings, prices, map[], map[], incentive, minimum))
  }

  // ---------- what every run keeps ----------

  /// Every market's collateral factor is at most its liquidation threshold, and that at most one.
  ghost predicate FactorsHold(p: Pool) {
    forall mk :: FactorsHoldAt(p, mk)
  }

  ghost predicate FactorsHoldAt(p: Pool, mk: MarketId) {
    Get(p.collateralFactors, mk) <= Get(p.thresholds, mk) <= EXP_SCALE
  }

  ghost predicate Valid(s: State) {
    AssetLists.Inv(s.lists) && Sound(s.pool) && FactorsHold(s.pool)
  }

  lemma FactorsAfter(p: Pool, mk: MarketId, collateralFactor: nat, threshold: nat)
    requires FactorsHold(p) && collateralFactor <= threshold <= EXP_SCALE
    ensures FactorsHold(SetFactors(p, mk, collateralFactor, threshold))
  {
    forall other
      ensures FactorsHoldAt(SetFactors(p, mk, collateralFactor, threshold), other)
    {
      assert FactorsHoldAt(p, other);
    }
  }

  lemma SameFactors(p: Pool, p': Pool)
    requires FactorsHold(p) && p'.collateralFactors == p.collateralFactors && p'.thresholds == p.thresholds
    ensures FactorsHold(p')
  {
    forall mk
      ensures FactorsHoldAt(p', mk)
    {
      assert FactorsHoldAt(p, mk);
    }
  }

  lemma SameMarkets(p: Pool, p': Pool)
    requires Sound(p) && p'.markets == p.markets
    ensures Sound(p')
  {
    forall mk
      ensures SoundAt(p', mk)
    {
      assert SoundAt(p, mk);
      assert MarketOf(p', mk) == MarketOf(p, mk);
    }
  }

  lemma ListsKeepValid(s: State, e: AssetLists.Event)
    requires Valid(s) && AssetLists.Next(s.lists, e).Done?
    ensures Valid(s.(lists := AssetLists.Next(s.lists, e).value))
  {
    AssetLists.EventKeeps(s.lists, e);
  }

  lemma {:induction false} AccrueAllKeepsTerms(p: Pool, now: nat, rates: map<MarketId, nat>, assets: seq<MarketId>)
    requires AccrueAll(p, now, rates, assets).Done?
    ensures var p' := AccrueAll(p, now, rates, assets).value; p' == p.(markets := p'.markets)
    decreases |assets|
  {
    if |assets| > 0 {
      AccrueAllKeepsTerms(Accrued(p, assets[0], now, rates).value, now, rates, assets[1..]);
    }
  }

  lemma {:induction false} HealKeepsTerms(p: Pool, liquidator: Account, user: Account, percentage: nat, fees: map<MarketId, nat>,
                                          assets: seq<MarketId>)
    requires HealMarkets(p, liquidator, user, percentage, fees, assets).Done?
    ensures var p' := HealMarkets(p, liquidator, user, percentage, fees, assets).value; p' == p.(markets := p'.markets)
    decreases |assets|
  {
    if |assets| > 0 {
      var mk := assets[0];
      var m := HealMarket(SettingsOf(p, mk), MarketOf(p, mk), liquidator, user, percentage, Get(fees, mk)).value;
      HealKeepsTerms(WithMarket(p, mk, m), liquidator, user, percentage, fees, assets[1..]);
    }
  }

  lemma AccountAssets(s: State, a: Account)
    requires AssetLists.Inv(s.lists)
    ensures DistinctAssets(AssetsOf(s, a))
    ensures forall mk :: mk in AssetsOf(s, a) <==> (mk, a) in s.lists.members && mk in s.lists.listed
  {
    assert AssetLists.ListInv(s.lists, a);
    AssetLists.ReportedMarkets(s.lists.listed, AssetLists.ListOf(s.lists, a));
  }

  lemma HealKeepsValid(s: State, now: nat, rates: map<MarketId, nat>, liquidator: Account, a: Account, fees: map<MarketId, nat>)
    requires Valid(s) && HealAccount(s.pool, now, rates, liquidator, a, AssetsOf(s, a), fees).Done?
    ensures Valid(s.(pool := HealAccount(s.pool, now, rates, liquidator, a, AssetsOf(s, a), fees).value))
  {
    var assets := AssetsOf(s, a);
    AccountAssets(s, a);
    HealSettles(s.pool, now, rates, liquidator, a, assets, fees);
    AccrueAllKeepsTerms(s.pool, now, rates, assets);
    var p1 := AccrueAll(s.pool, now, rates, assets).value;
    var percentage := HealPercentage(Health(p1, a, assets).value, p1.minLiquidatableCollateral, p1.incentive).value;
    HealKeepsTerms(p1, liquidator, a, percentage, fees, assets);
    SameFactors(s.pool, HealAccount(s.pool, now, rates, liquidator, a, assets, fees).value);
  }

  lemma LiquidateKeepsValid(s: State, now: nat, rates: map<MarketId, nat>, liquidator: Account, a: Account, orders: seq<Order>)
    requires Valid(s)
    requires LiquidateAccount(s.pool, AccessOf(s.lists, a), now, rates, liquidator, a, AssetsOf(s, a), orders).Done?
    ensures Valid(s.(pool := LiquidateAccount(s.pool, AccessOf(s.lists, a), now, rates, liquidator, a, AssetsOf(s, a), orders).value))
  {
    var p' := LiquidateAccount(s.pool, AccessOf(s.lists, a), now, rates, liquidator, a, AssetsOf(s, a), orders).value;
    LiquidationClears(s.pool, AccessOf(s.lists, a), now, rates, liquidator, a, AssetsOf(s, a), orders);
    SameFactors(s.pool, p');
  }

  lemma ApplyToKeepsValid(s: State, mk: MarketId, now: nat, action: Action)
    requires Valid(s) && ApplyTo(s.pool, mk, now, action).Done?
    ensures Valid(s.(pool := ApplyTo(s.pool, mk, now, action).value))
  {
    var step := Step(SettingsOf(s.pool, mk), now, action);
    CallKeepsSound(s.pool, mk, step, Apply(MarketOf(s.pool, mk), step).value);
    SameFactors(s.pool, ApplyTo(s.pool, mk, now, action).value);
  }

  lemma HookKeepsValid(s: State, mk: MarketId, action: Action, tokens: nat, paused: set<AssetLists.Pausable>)
    requires Valid(s) && Hook(s, mk, action, tokens, paused).Done?
    ensures var s' := Hook(s, mk, action, tokens, paused).value; Valid(s') && s' == s.(lists := s'.lists)
    ensures !action.Borrow? ==> Hook(s, mk, action, tokens, paused).value == s
  {
    if action.Borrow? {
      ListsKeepValid(s, AssetLists.Borrow(mk, action.borrower, true, AssetLists.ENTER_MARKET in paused));
    }
  }

  lemma CallStages(s: State, mk: MarketId, now: nat, action: Action, paused: set<AssetLists.Pausable>)
    returns (tokens: nat, s1: State, m: Market)
    requires CallMarket(s, mk, now, action, paused).Done?
    ensures HookedTokens(s.pool, mk, now, action) == Done(tokens) && Hook(s, mk, action, tokens, paused) == Done(s1)
    ensures Apply(MarketOf(s1.pool, mk), Step(SettingsOf(s1.pool, mk), now, action)) == Done(m)
    ensures ApplyTo(s1.pool, mk, now, action) == Done(WithMarket(s1.pool, mk, m))
    ensures CallMarket(s, mk, now, action, paused).value == s1.(pool := WithMarket(s1.pool, mk, m))
  {
    tokens := HookedTokens(s.pool, mk, now, action).value;
    s1 := Hook(s, mk, action, tokens, paused).value;
    m := Apply(MarketOf(s1.pool, mk), Step(SettingsOf(s1.pool, mk), now, action)).value;
  }

  lemma CallKeepsValid(s: State, mk: MarketId, now: nat, action: Action, paused: set<AssetLists.Pausable>)
    requires Valid(s) && CallMarket(s, mk, now, action, paused).Done?
    ensures Valid(CallMarket(s, mk, now, action, paused).value)
  {
    var tokens, s1, m := CallStages(s, mk, now, action, paused);
    HookKeepsValid(s, mk, action, tokens, paused);
    ApplyToKeepsValid(s1, mk, now, action);
  }

  /// The factors of a listed market can be set exactly within their limits, and for a collateral factor there has to be
  /// a price; they are set for this market only.
  lemma FactorsAreSet(s: State, mk: MarketId, factor: nat, threshold: nat, other: MarketId)
    ensures Next(s, Factors(mk, factor, threshold)).Done? <==>
      (&& mk in s.lists.listed && factor <= 950_000_000_000_000_000 && factor <= threshold <= 1_000_000_000_000_000_000
       && (factor == 0 || Get(s.pool.prices, mk) != 0))
    ensures Next(s, Factors(mk, factor, threshold)).Done? ==>
      var s' := Next(s, Factors(mk, factor, threshold)).value;
      && Get(s'.pool.collateralFactors, mk) == factor && Get(s'.pool.thresholds, mk) == threshold
      && s'.lists == s.lists && s'.pool.markets == s.pool.markets
      && (other != mk ==>
            Get(s'.pool.collateralFactors, other) == Get(s.pool.collateralFactors, other)
            && Get(s'.pool.thresholds, other) == Get(s.pool.thresholds, other))
  {
  }

  /// A market is supported exactly when it never was before, at the end of the list, and with both factors at zero
  /// whatever they were; the factors of other markets stay.
  lemma SupportedAtZero(s: State, mk: MarketId, other: MarketId)
    ensures Next(s, Support(mk)).Done? <==> mk !in s.lists.listed && mk !in s.lists.allMarkets
    ensures Next(s, Support(mk)).Done? ==>
      var s' := Next(s, Support(mk)).value;
      && s'.lists == s.lists.(listed := s.lists.listed + {mk}, allMarkets := s.lists.allMarkets + [mk])
      && Get(s'.pool.collateralFactors, mk) == Get(s'.pool.thresholds, mk) == 0 && s'.pool.markets == s.pool.markets
      && (other != mk ==>
            Get(s'.pool.collateralFactors, other) == Get(s.pool.collateralFactors, other)
            && Get(s'.pool.thresholds, other) == Get(s.pool.thresholds, other))
  {
    AssetLists.SupportsOnce(s.lists, mk);
  }

  /// Governance may set any price and any minimum of collateral, and an incentive of at least one.
  lemma TermsAreSet(s: State, mk: MarketId, amount: nat)
    ensures Next(s, Price(mk, amount)) == Done(s.(pool := s.pool.(prices := s.pool.prices[mk := amount])))
    ensures Next(s, Minimum(amount)) == Done(s.(pool := s.pool.(minLiquidatableCollateral := amount)))
    ensures Next(s, Incentive(amount)).Done? <==> 1_000_000_000_000_000_000 <= amount
    ensures Next(s, Incentive(amount)).Done? ==> Next(s, Incentive(amount)).value == s.(pool := s.pool.(incentive := amount))
  {
  }

  /// The account's prices are all there, and what it supposes leaves it without a shortfall of borrowing power.
  predicate MayChange(s: State, a: Account, e: Effect) {
    var ps := Positions(s.pool, a, AssetsOf(s, a));
    Priced(ps) && 0 <= Surplus(ps, CollateralFactor, e)
  }

  /// Who may give up vTokens of a listed market: who is not in it, and who may suppose it.
  predicate MayGiveUp(s: State, mk: MarketId, a: Account, tokens: nat) {
    mk in s.lists.listed && ((mk, a) in s.lists.members ==> MayChange(s, a, InMarket(mk, tokens, 0)))
  }

  /// What the comptroller lets through, action by action.
  lemma HookPasses(s: State, mk: MarketId, action: Action, tokens: nat, paused: set<AssetLists.Pausable>)
    ensures action.Mint? ==>
      (Hook(s, mk, action, tokens, paused).Done? <==> AssetLists.MINT !in paused && mk in s.lists.listed)
    ensures action.Redeem? ==>
      (Hook(s, mk, action, tokens, paused).Done? <==> AssetLists.REDEEM !in paused && MayGiveUp(s, mk, action.redeemer, tokens))
    ensures action.Transfer? ==>
      (Hook(s, mk, action, tokens, paused).Done? <==> AssetLists.TRANSFER !in paused && MayGiveUp(s, mk, action.src, action.tokens))
    ensures action.Repay? || (action.Heal? && action.amount != 0) ==>
      (Hook(s, mk, action, tokens, paused).Done? <==> AssetLists.REPAY !in paused && mk in s.lists.listed)
    ensures action.SeizeCollateral? ==>
      (Hook(s, mk, action, tokens, paused).Done? <==>
         AssetLists.SEIZE !in paused && mk in s.lists.listed && (mk, action.borrower) in s.lists.members)
    ensures AsksNothing(action) ==> Hook(s, mk, action, tokens, paused) == Done(s)
  {
    OnePaused(AssetLists.MINT, paused);
    OnePaused(AssetLists.REDEEM, paused);
    OnePaused(AssetLists.TRANSFER, paused);
    OnePaused(AssetLists.REPAY, paused);
    OnePaused(AssetLists.SEIZE, paused);
    assert {} * paused == {};
  }

  predicate AsksNothing(action: Action) {
    || action.Accrue? || action.Recover? || action.WithdrawReserves? || action.AddReserves? || action.Donate?
    || (action.Heal? && action.amount == 0)
  }

  lemma OnePaused(action: AssetLists.Pausable, paused: set<AssetLists.Pausable>)
    ensures {action} * paused != {} <==> action in paused
  {
    if action in paused {
      assert action in {action} * paused;
    }
  }

  /// A borrow: of a listed market with a price, by who is in it or enters it, and may suppose the borrow then.
  lemma BorrowHookPasses(s: State, mk: MarketId, a: Account, amount: nat, paused: set<AssetLists.Pausable>)
    ensures Hook(s, mk, Borrow(a, amount), 0, paused).Done? <==>
      (&& AssetLists.BORROW !in paused && mk in s.lists.listed
       && ((mk, a) !in s.lists.members ==> AssetLists.ENTER_MARKET !in paused)
       && Get(s.pool.prices, mk) != 0
       && MayChange(s.(lists := AssetLists.BorrowHook(s.lists, mk, a, true, AssetLists.ENTER_MARKET in paused).value), a,
                    InMarket(mk, 0, amount)))
  {
    OnePaused(AssetLists.BORROW, paused);
    AssetLists.BorrowEnters(s.lists, mk, a, true, AssetLists.ENTER_MARKET in paused);
  }

  lemma TermsKeepValid(s: State, pool: Pool)
    requires Valid(s) && pool.markets == s.pool.markets
    requires pool.collateralFactors == s.pool.collateralFactors && pool.thresholds == s.pool.thresholds
    ensures Valid(s.(pool := pool))
  {
    SameFactors(s.pool, pool);
    SameMarkets(s.pool, pool);
  }

  lemma FactorEventKeepsValid(s: State, e: Event)
    requires Valid(s) && (e.Support? || e.Factors?) && Next(s, e).Done?
    ensures Valid(Next(s, e).value)
  {
    var s' := Next(s, e).value;
    if e.Support? {
      AssetLists.EventKeeps(s.lists, AssetLists.Support(e.market));
      FactorsAfter(s.pool, e.market, 0, 0);
    } else {
      FactorsAfter(s.pool, e.market, e.collateralFactor, e.threshold);
    }
    SameMarkets(s.pool, s'.pool);
  }

  lemma ListEventKeepsValid(s: State, e: Event)
    requires Valid(s) && (e.Enter? || e.Exit? || e.BorrowHook? || e.Unlist?) && Next(s, e).Done?
    ensures Valid(Next(s, e).value)
  {
    match e
    case Enter(mks, a, paused) => ListsKeepValid(s, AssetLists.Enter(mks, a, paused));
    case Exit(mk, a, paused) =>
      ListsKeepValid(s, AssetLists.Exit(mk, a, paused, Debt(s.pool, mk, a), CheckEffect(s, a, InMarket(mk, Tokens(s.pool, mk, a), 0))));
    case BorrowHook(mk, a, fromMarket, paused) => ListsKeepValid(s, AssetLists.Borrow(mk, a, fromMarket, paused));
    case Unlist(mk, paused, borrowCap, supplyCap) =>
      ListsKeepValid(s, AssetLists.Unlist(mk, AssetLists.Controls(paused, borrowCap, supplyCap, Get(s.pool.collateralFactors, mk))));
  }

  lemma EventKeepsValid(s: State, e: Event)
    requires Valid(s)
    ensures Valid(After(s, e))
  {
    if Next(s, e).Done? {
      if e.Enter? || e.Exit? || e.BorrowHook? || e.Unlist? {
        ListEventKeepsValid(s, e);
      } else if e.Support? || e.Factors? {
        FactorEventKeepsValid(s, e);
      } else if e.Price? || e.Incentive? || e.Minimum? {
        TermsKeepValid(s, Next(s, e).value.pool);
      } else if e.Call? {
        CallKeepsValid(s, e.market, e.now, e.action, e.pausedActions);
      } else if e.Heal? {
        HealKeepsValid(s, e.now, e.rates, e.liquidator, e.account, e.fees);
      } else {
        LiquidateKeepsValid(s, e.now, e.rates, e.liquidator, e.account, e.orders);
      }
    }
  }

  lemma {:induction false} RunKeepsValid(s: State, events: seq<Event>)
    requires Valid(s)
    ensures Valid(Run(s, events))
    decreases |events|
  {
    if |events| > 0 {
      EventKeepsValid(s, events[0]);
      RunKeepsValid(After(s, events[0]), events[1..]);
    }
  }

  lemma DeployedIsValid(settings: map<MarketId, AllowedSettings>, prices: map<MarketId, nat>, incentive: nat, minimum: nat)
    ensures Valid(Deployed(settings, prices, incentive, minimum))
  {
    var s := Deployed(settings, prices, incentive, minimum);
    forall mk
      ensures SoundAt(s.pool, mk)
    {
      UnknownIsSound(s.pool, mk);
    }
    forall mk
      ensures FactorsHoldAt(s.pool, mk)
    {
    }
  }

  // ---------- what it means for accounts ----------

  /// In a valid pool every account's positions have their factors in order and hold each market once.
  lemma PositionsInOrder(s: State, a: Account)
    requires Valid(s)
    ensures var ps := Positions(s.pool, a, AssetsOf(s, a));
      NoDuplicates(ps) && forall i :: 0 <= i < |ps| ==> FactorsInOrder(ps[i])
  {
    AccountAssets(s, a);
    var assets := AssetsOf(s, a);
    forall i | 0 <= i < |assets|
      ensures FactorsInOrder(PositionOf(s.pool, assets[i], a))
    {
      assert FactorsHoldAt(s.pool, assets[i]);
    }
  }

  /// What the comptroller says to the liquidation of a single borrow. `forced` is what governance has switched on
  /// for the borrowed market.
  function PreLiquidate(s: State, borrowed: MarketId, collateral: MarketId, a: Account, repayAmount: nat, forced: bool,
                        closeFactor: nat): Outcome<()>
  {
    if borrowed !in s.lists.listed || collateral !in s.lists.listed then Revert(MarketNotListed)
    else if forced then if repayAmount > Debt(s.pool, borrowed, a) then Revert(TooMuchRepay) else Done(())
    else match Health(s.pool, a, AssetsOf(s, a))
      case Revert(e) => Revert(e)
      case Done(health) =>
        if health.totalCollateral <= s.pool.minLiquidatableCollateral then Revert(MinimalCollateralViolated)
        else if health.shortfall == 0 then Revert(InsufficientShortfall)
        else if repayAmount > MulTruncate(closeFactor, Debt(s.pool, borrowed, a)) then Revert(TooMuchRepay)
        else Done(())
  }

  /// The liquidation of a single borrow is let through between listed markets for no more than is owed where governance
  /// forces it; elsewhere for more than the minimum of collateral in shortfall, and up to the close factor's part.
  lemma PreLiquidatePasses(s: State, borrowed: MarketId, collateral: MarketId, a: Account, repayAmount: nat, forced: bool,
                           closeFactor: nat)
    ensures var ps := Positions(s.pool, a, AssetsOf(s, a));
      PreLiquidate(s, borrowed, collateral, a, repayAmount, forced, closeFactor).Done? <==>
        (&& borrowed in s.lists.listed && collateral in s.lists.listed
         && (if forced then repayAmount <= Debt(s.pool, borrowed, a)
             else && Priced(ps) && s.pool.minLiquidatableCollateral < TotalCollateral(ps)
                  && WeightedCollateral(ps, LiquidationThreshold) < Borrows(ps)
                  && repayAmount * EXP_SCALE <= closeFactor * Debt(s.pool, borrowed, a)))
  {
    NoEffects(Positions(s.pool, a, AssetsOf(s, a)), LiquidationThreshold);
    DivBounds(closeFactor * Debt(s.pool, borrowed, a), EXP_SCALE, repayAmount);
  }

  /// In every pool reached from deployment, whatever users, governance and markets do: the shortfall against the
  /// liquidation thresholds is never more than that of borrowing power; and an account without the latter is
  /// open to none of healing, liquidation of the account, and liquidation of a borrow, but for a borrow for whose
  /// market governance has switched on forced liquidation.
  lemma BorrowingPowerProtectsEveryone(settings: map<MarketId, AllowedSettings>, prices: map<MarketId, nat>, incentive: nat,
                                       minimum: nat, events: seq<Event>, a: Account)
    ensures var s := Run(Deployed(settings, prices, incentive, minimum), events);
      var ps := Positions(s.pool, a, AssetsOf(s, a));
      var power, health := SnapshotOf(ps, CollateralFactor, NoEffect), SnapshotOf(ps, LiquidationThreshold, NoEffect);
      && Valid(s) && health.shortfall <= power.shortfall
      && (power.shortfall == 0 ==>
            && HealPercentage(health, s.pool.minLiquidatableCollateral, s.pool.incentive).Revert?
            && LiquidationCheck(health, s.pool.minLiquidatableCollateral, s.pool.incentive).Revert?
            && forall borrowed, collateral, repayAmount: nat, forced, closeFactor: nat ::
                 PreLiquidate(s, borrowed, collateral, a, repayAmount, forced, closeFactor).Done? <==>
                   (forced && borrowed in s.lists.listed && collateral in s.lists.listed
                    && repayAmount <= Debt(s.pool, borrowed, a)))
  {
    var s := Run(Deployed(settings, prices, incentive, minimum), events);
    DeployedIsValid(settings, prices, incentive, minimum);
    RunKeepsValid(Deployed(settings, prices, incentive, minimum), events);
    PowerProtects(s, a);
  }

  lemma PowerProtects(s: State, a: Account)
    requires Valid(s)
    ensures var ps := Positions(s.pool, a, AssetsOf(s, a));
      var power, health := SnapshotOf(ps, CollateralFactor, NoEffect), SnapshotOf(ps, LiquidationThreshold, NoEffect);
      && health.shortfall <= power.shortfall
      && (power.shortfall == 0 ==>
            && HealPercentage(health, s.pool.minLiquidatableCollateral, s.pool.incentive).Revert?
            && LiquidationCheck(health, s.pool.minLiquidatableCollateral, s.pool.incentive).Revert?
            && forall borrowed, collateral, repayAmount: nat, forced, closeFactor: nat ::
                 PreLiquidate(s, borrowed, collateral, a, repayAmount, forced, closeFactor).Done? <==>
                   (forced && borrowed in s.lists.listed && collateral in s.lists.listed
                    && repayAmount <= Debt(s.pool, borrowed, a)))
  {
    PositionsInOrder(s, a);
    BorrowingPowerProtects(Positions(s.pool, a, AssetsOf(s, a)));
  }
}

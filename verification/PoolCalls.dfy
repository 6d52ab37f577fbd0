/** When users' calls go through in a pool: the comptroller's conditions and the market's together, and what they leave. */
module PoolCalls {
  import opened FixedPoint
  import opened Totals
  import opened Outcomes
  import opened Ledger
  import opened Borrowers
  import opened Operations
  import opened Liquidity
  import opened Pools
  import opened Liquidations
  import opened PoolRuns
  import AssetLists
  import ExchangeRate

  /// The market's own part of a call left the rest of the pool alone.
  ghost predicate Leaves(s: State, mk: MarketId, m': Outcome<Market>, call: Outcome<State>) {
    call.Done? ==> m'.Done? && call.value == s.(pool := WithMarket(s.pool, mk, m'.value))
  }

  /// Calls whose hook needs to know nothing more than the call.
  predicate Simple(action: Action) {
    action.Mint? || action.Repay? || action.Transfer? || action.SeizeCollateral?
  }

  lemma CallIs(s: State, mk: MarketId, now: nat, action: Action, paused: set<AssetLists.Pausable>)
    requires Simple(action)
    ensures var m' := Apply(MarketOf(s.pool, mk), Step(SettingsOf(s.pool, mk), now, action));
      var call := Next(s, Call(mk, now, action, paused));
      && (call.Done? <==> Hook(s, mk, action, 0, paused).Done? && m'.Done?)
      && Leaves(s, mk, m', call)
  {
  }

  lemma MarketIsSound(s: State, mk: MarketId)
    requires Valid(s)
    ensures ExchangeRate.Inv(MarketOf(s.pool, mk))
    ensures ExchangeRateStored(SettingsOf(s.pool, mk), MarketOf(s.pool, mk)) == Done(RateOf(s.pool, mk))
  {
    assert SoundAt(s.pool, mk);
    RateIsPart(SettingsOf(s.pool, mk), MarketOf(s.pool, mk));
  }

  /// A mint goes through exactly when minting is not paused in a listed market, accrued to this slot, with a rate.
  lemma MintGoesThrough(s: State, mk: MarketId, now: nat, minter: Account, amount: nat, fee: nat, paused: set<AssetLists.Pausable>)
    requires Valid(s)
    ensures var m, call := MarketOf(s.pool, mk), Next(s, Call(mk, now, Mint(minter, amount, fee), paused));
      && (call.Done? <==>
            AssetLists.MINT !in paused && mk in s.lists.listed && m.accrualBlock == now && RateOf(s.pool, mk) != 0)
      && Leaves(s, mk, MintFresh(SettingsOf(s.pool, mk), m, now, minter, amount, fee), call)
  {
    MarketIsSound(s, mk);
    HookPasses(s, mk, Mint(minter, amount, fee), 0, paused);
    MintPasses(SettingsOf(s.pool, mk), MarketOf(s.pool, mk), now, minter, amount, fee);
    CallIs(s, mk, now, Mint(minter, amount, fee), paused);
  }

  lemma RepayAsks(s: State, mk: MarketId, now: nat, repay: Action, paused: set<AssetLists.Pausable>)
    requires repay.Repay?
    ensures var call, m' := Next(s, Call(mk, now, repay, paused)), Apply(MarketOf(s.pool, mk), Step(SettingsOf(s.pool, mk), now, repay));
      && (call.Done? <==> AssetLists.REPAY !in paused && mk in s.lists.listed && m'.Done?)
      && Leaves(s, mk, m', call)
  {
    HookPasses(s, mk, repay, 0, paused);
    CallIs(s, mk, now, repay, paused);
  }

  lemma RepayApplies(settings: AllowedSettings, m: Market, now: nat, borrower: Account, amount: nat, fee: nat, owed: nat)
    requires ExchangeRate.Inv(m) && owed == Balance(m, borrower)
    ensures Apply(m, Step(settings, now, Repay(borrower, amount, fee))).Done? <==>
      m.accrualBlock == now && Arrives(if owed <= amount then owed else amount, fee) <= m.totalBorrows
  {
    RepayAddsUp(m, now, borrower, amount, fee);
  }

  /// A repayment goes through exactly when repaying is not paused in a listed market, accrued to this slot, and what
  /// arrives is within totalBorrows.
  lemma RepayGoesThrough(s: State, mk: MarketId, now: nat, borrower: Account, amount: nat, fee: nat,
                         paused: set<AssetLists.Pausable>, m: Market, owed: nat)
    requires Valid(s) && m == MarketOf(s.pool, mk) && owed == Balance(m, borrower)
    ensures var call := Next(s, Call(mk, now, Repay(borrower, amount, fee), paused));
      && (call.Done? <==>
            (&& AssetLists.REPAY !in paused && mk in s.lists.listed && m.accrualBlock == now
             && Arrives(if owed <= amount then owed else amount, fee) <= m.totalBorrows))
      && Leaves(s, mk, Apply(m, Step(SettingsOf(s.pool, mk), now, Repay(borrower, amount, fee))), call)
  {
    assert SoundAt(s.pool, mk);
    RepayApplies(SettingsOf(s.pool, mk), m, now, borrower, amount, fee, owed);
    RepayAsks(s, mk, now, Repay(borrower, amount, fee), paused);
  }

  /// A transfer goes through exactly when transfers are not paused in a listed market, the sender may give up the
  /// tokens and has them, and does not send to itself.
  lemma TransferGoesThrough(s: State, mk: MarketId, now: nat, src: Account, dst: Account, tokens: nat,
                            paused: set<AssetLists.Pausable>)
    ensures var m, call := MarketOf(s.pool, mk), Next(s, Call(mk, now, Transfer(src, dst, tokens), paused));
      && (call.Done? <==>
            (&& AssetLists.TRANSFER !in paused && MayGiveUp(s, mk, src, tokens)
             && src != dst && tokens <= Tokens(s.pool, mk, src)))
      && Leaves(s, mk, TransferTokens(m, src, dst, tokens), call)
  {
    HookPasses(s, mk, Transfer(src, dst, tokens), 0, paused);
    TransferMoves(MarketOf(s.pool, mk), src, dst, tokens);
    CallIs(s, mk, now, Transfer(src, dst, tokens), paused);
  }

  /// A borrow goes through exactly when borrowing is not paused in a listed market with a price, the borrower is in the
  /// market or may enter it, may suppose the borrow then, the market is accrued to this slot, and its cash beyond the
  /// reserves covers the amount. The borrower is in the market afterwards.
  lemma BorrowGoesThrough(s: State, mk: MarketId, now: nat, a: Account, amount: nat, paused: set<AssetLists.Pausable>)
    requires Valid(s)
    ensures var m, call := MarketOf(s.pool, mk), Next(s, Call(mk, now, Borrow(a, amount), paused));
      var entered := AssetLists.BorrowHook(s.lists, mk, a, true, AssetLists.ENTER_MARKET in paused);
      && (call.Done? <==>
            (&& AssetLists.BORROW !in paused && mk in s.lists.listed && Get(s.pool.prices, mk) != 0
             && ((mk, a) !in s.lists.members ==> AssetLists.ENTER_MARKET !in paused)
             && MayChange(s.(lists := entered.value), a, InMarket(mk, 0, amount))
             && m.accrualBlock == now && m.totalReserves + amount <= m.cash))
      && (call.Done? ==> (mk, a) in call.value.lists.members)
      && (call.Done? ==> entered.Done? && Leaves(s.(lists := entered.value), mk, BorrowFresh(m, now, a, amount), call))
  {
    BorrowHookPasses(s, mk, a, amount, paused);
    assert SoundAt(s.pool, mk);
    BorrowAddsUp(MarketOf(s.pool, mk), now, a, amount);
    BorrowCallIs(s, mk, now, a, amount, paused);
    AssetLists.BorrowEnters(s.lists, mk, a, true, AssetLists.ENTER_MARKET in paused);
  }

  lemma BorrowCallIs(s: State, mk: MarketId, now: nat, a: Account, amount: nat, paused: set<AssetLists.Pausable>)
    ensures var m' := BorrowFresh(MarketOf(s.pool, mk), now, a, amount);
      var call, hook := Next(s, Call(mk, now, Borrow(a, amount), paused)), Hook(s, mk, Borrow(a, amount), 0, paused);
      && (call.Done? <==> hook.Done? && m'.Done?)
      && (hook.Done? ==>
            var entered := AssetLists.BorrowHook(s.lists, mk, a, true, AssetLists.ENTER_MARKET in paused);
            entered.Done? && hook.value == s.(lists := entered.value) && Leaves(hook.value, mk, m', call))
  {
  }

  function TokensOut(rate: nat, tokensIn: nat, amountIn: nat): nat {
    if tokensIn > 0 then tokensIn else if rate == 0 then 0 else TokensForAmount(rate, amountIn)
  }

  lemma RedeemAsksFor(settings: AllowedSettings, m: Market, now: nat, a: Account, tokensIn: nat, amountIn: nat, rate: nat)
    requires ExchangeRateStored(settings, m) == Done(rate)
    ensures var asked := TokensToRedeem(settings, m, now, tokensIn, amountIn);
      && (asked.Done? ==> asked.value == TokensOut(rate, tokensIn, amountIn))
      && (RedeemFresh(settings, m, now, a, tokensIn, amountIn).Done? ==> asked.Done?)
  {
  }

  lemma RedeemCallIs(s: State, mk: MarketId, now: nat, a: Account, tokensIn: nat, amountIn: nat, tokens: nat,
                     paused: set<AssetLists.Pausable>)
    requires var asked := TokensToRedeem(SettingsOf(s.pool, mk), MarketOf(s.pool, mk), now, tokensIn, amountIn);
      && (asked.Done? ==> asked.value == tokens)
      && (RedeemFresh(SettingsOf(s.pool, mk), MarketOf(s.pool, mk), now, a, tokensIn, amountIn).Done? ==> asked.Done?)
    ensures var m' := RedeemFresh(SettingsOf(s.pool, mk), MarketOf(s.pool, mk), now, a, tokensIn, amountIn);
      var call := Next(s, Call(mk, now, Redeem(a, tokensIn, amountIn), paused));
      && (call.Done? <==> Hook(s, mk, Redeem(a, tokensIn, amountIn), tokens, paused).Done? && m'.Done?)
      && Leaves(s, mk, m', call)
  {
  }

  /// A redeem goes through exactly when redeeming is not paused, it names one of vTokens and amount, the holder may give
  /// up the vTokens it takes and has them, they are worth something, and cash beyond the reserves covers that, in a
  /// market accrued to this slot.
  lemma RedeemGoesThrough(s: State, mk: MarketId, now: nat, a: Account, tokensIn: nat, amountIn: nat,
                          paused: set<AssetLists.Pausable>, settings: AllowedSettings, m: Market, rate: nat)
    requires Valid(s) && settings == SettingsOf(s.pool, mk) && m == MarketOf(s.pool, mk)
    requires ExchangeRateStored(settings, m) == Done(rate)
    ensures var call, tokens := Next(s, Call(mk, now, Redeem(a, tokensIn, amountIn), paused)), TokensOut(rate, tokensIn, amountIn);
      && (call.Done? <==>
            (&& AssetLists.REDEEM !in paused && MayGiveUp(s, mk, a, tokens) && (tokensIn == 0 || amountIn == 0)
             && m.accrualBlock == now && EXP_SCALE <= rate * tokens && tokens <= Get(m.accountTokens, a)
             && m.totalReserves + rate * tokens / EXP_SCALE <= m.cash))
      && Leaves(s, mk, RedeemFresh(settings, m, now, a, tokensIn, amountIn), call)
  {
    assert SoundAt(s.pool, mk);
    RedeemPasses(settings, m, now, a, tokensIn, amountIn);
    RedeemAsksFor(settings, m, now, a, tokensIn, amountIn, rate);
    HookPasses(s, mk, Redeem(a, tokensIn, amountIn), TokensOut(rate, tokensIn, amountIn), paused);
    RedeemCallIs(s, mk, now, a, tokensIn, amountIn, TokensOut(rate, tokensIn, amountIn), paused);
  }

  /// The tokens are somebody else's, as many as there are, and the protocol's share of them can be paid out at the rate.
  predicate CanBeSeized(settings: AllowedSettings, m: Market, rate: nat, liquidator: Account, borrower: Account, tokens: nat)
    requires 0 < settings.liquidationIncentive
  {
    var toProtocol := ProtocolSeizeTokens(settings, tokens);
    && liquidator != borrower && toProtocol <= tokens <= Get(m.accountTokens, borrower)
    && MulTruncate(rate, toProtocol) <= m.cash
  }

  lemma SeizeApplies(settings: AllowedSettings, m: Market, now: nat, rate: nat, liquidator: Account, borrower: Account,
                     tokens: nat)
    requires ExchangeRate.Inv(m) && 0 < settings.liquidationIncentive && ExchangeRateStored(settings, m) == Done(rate)
    ensures Apply(m, Step(settings, now, SeizeCollateral(liquidator, borrower, tokens))).Done?
       <==> CanBeSeized(settings, m, rate, liquidator, borrower, tokens)
  {
    SeizePasses(settings, m, liquidator, borrower, tokens);
  }

  lemma SeizureAsks(s: State, mk: MarketId, now: nat, liquidator: Account, borrower: Account, tokens: nat,
                    paused: set<AssetLists.Pausable>)
    ensures var seize := SeizeCollateral(liquidator, borrower, tokens);
      var call, m' := Next(s, Call(mk, now, seize, paused)), Apply(MarketOf(s.pool, mk), Step(SettingsOf(s.pool, mk), now, seize));
      && (call.Done? <==>
            AssetLists.SEIZE !in paused && mk in s.lists.listed && (mk, borrower) in s.lists.members && m'.Done?)
      && Leaves(s, mk, m', call)
  {
    HookPasses(s, mk, SeizeCollateral(liquidator, borrower, tokens), 0, paused);
    CallIs(s, mk, now, SeizeCollateral(liquidator, borrower, tokens), paused);
  }

  /// A seizure goes through exactly when seizing is not paused in a listed market that the borrower has entered, and the
  /// tokens can be seized.
  lemma SeizureGoesThrough(s: State, mk: MarketId, now: nat, liquidator: Account, borrower: Account, tokens: nat,
                           paused: set<AssetLists.Pausable>, settings: AllowedSettings, m: Market, rate: nat)
    requires Valid(s) && settings == SettingsOf(s.pool, mk) && m == MarketOf(s.pool, mk)
    requires 0 < settings.liquidationIncentive && ExchangeRateStored(settings, m) == Done(rate)
    ensures var call := Next(s, Call(mk, now, SeizeCollateral(liquidator, borrower, tokens), paused));
      && (call.Done? <==>
            (&& AssetLists.SEIZE !in paused && mk in s.lists.listed && (mk, borrower) in s.lists.members
             && CanBeSeized(settings, m, rate, liquidator, borrower, tokens)))
      && Leaves(s, mk, Seize(settings, m, liquidator, borrower, tokens), call)
  {
    assert SoundAt(s.pool, mk);
    SeizeApplies(settings, m, now, rate, liquidator, borrower, tokens);
    SeizureAsks(s, mk, now, liquidator, borrower, tokens, paused);
  }

  /// Orders of a liquidation that went through were of listed markets, for collateral that the account had entered.
  lemma OnlyEnteredIsSeized(s: State, now: nat, rates: map<MarketId, nat>, liquidator: Account, a: Account, orders: seq<Order>,
                            i: nat)
    requires i < |orders| && Next(s, Liquidate(now, rates, liquidator, a, orders)).Done?
    ensures orders[i].borrowed in s.lists.listed && orders[i].collateral in s.lists.listed
    ensures (orders[i].collateral, a) in s.lists.members && a != liquidator && 0 < orders[i].repayAmount
  {
    LiquidatedWasOpen(s.pool, AccessOf(s.lists, a), now, rates, liquidator, a, AssetsOf(s, a), orders);
    OrdersAreAllowed(s.pool, AccessOf(s.lists, a), now, rates, liquidator, a, orders, i);
  }
}

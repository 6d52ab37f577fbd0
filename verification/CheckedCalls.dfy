/** What the comptroller's check before a redeem, a transfer or a borrow means for the account after the call. The
    check supposes the position at the present exchange rate and truncates the change on its own; the call
    itself may raise the rate. */
module CheckedCalls {
  import opened FixedPoint
  import opened Totals
  import opened Outcomes
  import opened Ledger
  import opened ExchangeRate
  import opened Borrowers
  import opened Operations
  import opened Liquidity
  import opened Pools
  import opened PoolRuns
  import AssetLists

  predicate IsChecked(action: Action) {
    action.Redeem? || action.Transfer? || action.Borrow?
  }

  /// The account that the check is about.
  function CheckedAccount(action: Action): Account
    requires IsChecked(action)
  {
    match action
    case Redeem(redeemer, _, _) => redeemer
    case Transfer(src, _, _) => src
    case Borrow(borrower, _) => borrower
  }

  /// What the check supposes; the redeemed vTokens are known before it.
  function SupposedEffect(p: Pool, mk: MarketId, now: nat, action: Action): Effect
    requires IsChecked(action)
  {
    match action
    case Redeem(_, tokensIn, amountIn) =>
      (match TokensToRedeem(SettingsOf(p, mk), MarketOf(p, mk), now, tokensIn, amountIn)
       case Done(tokens) => InMarket(mk, tokens, 0)
       case Revert(_) => NoEffect)
    case Transfer(_, _, tokens) => InMarket(mk, tokens, 0)
    case Borrow(_, amount) => InMarket(mk, 0, amount)
  }

  /// The exchange rate after the call, from what is known before it: only a redeem changes it.
  function RateAfterwards(p: Pool, mk: MarketId, action: Action, e: Effect): nat {
    RateAfter(SettingsOf(p, mk), MarketOf(p, mk), action, if e.InMarket? then e.redeemTokens else 0)
  }

  function RateAfterRedeem(s: Settings, m: Market, tokens: nat): nat {
    var paid := MulTruncate(StoredRate(s, m), tokens);
    if m.totalSupply <= tokens then s.initialExchangeRate
    else if Underlying(m) < paid then 0
    else
      DivNonNegative((Underlying(m) - paid) * EXP_SCALE, m.totalSupply - tokens);
      (Underlying(m) - paid) * EXP_SCALE / (m.totalSupply - tokens)
  }

  function StoredRate(s: Settings, m: Market): nat {
    match ExchangeRateStored(s, m)
    case Done(rate) => rate
    case Revert(_) => 0
  }

  // ---------- one market ----------

  /// What a call made of one account in a market whose rate is now `rate`.
  ghost predicate Moves(s: Settings, m: Market, m': Market, a: Account, redeemed: nat, borrowed: nat, rate: nat) {
    && redeemed <= Get(m.accountTokens, a)
    && Get(m'.accountTokens, a) == Get(m.accountTokens, a) - redeemed && Balance(m', a) == Balance(m, a) + borrowed
    && StoredRate(s, m') == rate
    && (StoredRate(s, m) <= rate || Get(m.accountTokens, a) == redeemed)
  }

  lemma RateIs(s: Settings, m: Market)
    requires ExchangeRate.Inv(m) && 0 < m.totalSupply
    ensures StoredRate(s, m) == Rate(m)
  {
  }

  lemma HoldersNeedSupply(m: Market, a: Account)
    requires ExchangeRate.Inv(m)
    ensures Get(m.accountTokens, a) <= m.totalSupply
  {
    TotalNonNegative(Reals(m.accountTokens));
    assert At(Reals(m.accountTokens), a) == Get(m.accountTokens, a) as real;
  }

  lemma SameRate(s: Settings, m: Market, m': Market)
    requires Underlying(m') == Underlying(m) && m'.totalSupply == m.totalSupply
    ensures StoredRate(s, m') == StoredRate(s, m)
  {
  }

  function TokensOfRedeem(rate: nat, tokensIn: nat, amountIn: nat): nat {
    if tokensIn > 0 then tokensIn else if rate == 0 then 0 else TokensForAmount(rate, amountIn)
  }

  lemma RedeemedTokens(s: Settings, m: Market, now: nat, redeemer: Account, tokensIn: nat, amountIn: nat)
    requires RedeemFresh(s, m, now, redeemer, tokensIn, amountIn).Done?
    ensures var m', tokens := RedeemFresh(s, m, now, redeemer, tokensIn, amountIn).value,
                              TokensOfRedeem(StoredRate(s, m), tokensIn, amountIn);
      && tokens <= Get(m.accountTokens, redeemer) && tokens <= m.totalSupply
      && Get(m'.accountTokens, redeemer) == Get(m.accountTokens, redeemer) - tokens
      && m'.totalSupply == m.totalSupply - tokens && Underlying(m') == Underlying(m) - MulTruncate(StoredRate(s, m), tokens)
      && m'.accountBorrows == m.accountBorrows && m'.borrowIndex == m.borrowIndex
  {
  }

  lemma RateOfRedeemed(s: Settings, m: Market, m': Market, tokens: nat)
    requires tokens <= m.totalSupply && m'.totalSupply == m.totalSupply - tokens && 0 <= Underlying(m')
    requires Underlying(m') == Underlying(m) - MulTruncate(StoredRate(s, m), tokens)
    ensures StoredRate(s, m') == RateAfterRedeem(s, m, tokens)
  {
  }

  lemma RedeemMoves(s: AllowedSettings, m: Market, now: nat, redeemer: Account, tokensIn: nat, amountIn: nat, m': Market)
    requires ExchangeRate.Inv(m) && RedeemFresh(s, m, now, redeemer, tokensIn, amountIn) == Done(m')
    ensures var tokens := TokensOfRedeem(StoredRate(s, m), tokensIn, amountIn);
      Moves(s, m, m', redeemer, tokens, 0, RateAfterRedeem(s, m, tokens))
  {
    var tokens := TokensOfRedeem(StoredRate(s, m), tokensIn, amountIn);
    RedeemedTokens(s, m, now, redeemer, tokensIn, amountIn);
    SameBorrowsSameBalances(m, m');
    RedeemKeeps(s, m, now, redeemer, tokensIn, amountIn);
    HoldersNeedSupply(m', redeemer);
    RateOfRedeemed(s, m, m', tokens);
    if 0 < m'.totalSupply {
      BackedRate(m', Rate(m));
      RateIs(s, m);
      RateIs(s, m');
    }
  }

  lemma TransferMovesPosition(s: Settings, m: Market, src: Account, dst: Account, tokens: nat, m': Market)
    requires TransferTokens(m, src, dst, tokens) == Done(m')
    ensures Moves(s, m, m', src, tokens, 0, StoredRate(s, m))
  {
    SameBorrowsSameBalances(m, m');
    SameRate(s, m, m');
  }

  lemma BorrowMoves(s: Settings, m: Market, now: nat, borrower: Account, amount: nat, m': Market)
    requires ExchangeRate.Inv(m) && BorrowFresh(m, now, borrower, amount) == Done(m')
    ensures Moves(s, m, m', borrower, 0, amount, StoredRate(s, m))
  {
    BorrowAddsUp(m, now, borrower, amount);
    BorrowKeepsUnderlying(m, now, borrower, amount, m');
    SameRate(s, m, m');
  }

  lemma BorrowKeepsUnderlying(m: Market, now: nat, borrower: Account, amount: nat, m': Market)
    requires BorrowFresh(m, now, borrower, amount) == Done(m')
    ensures Underlying(m') == Underlying(m) && m'.totalSupply == m.totalSupply && m.accrualBlock == now
  {
  }

  lemma SupposedTokens(s: Settings, m: Market, now: nat, tokensIn: nat, amountIn: nat)
    requires TokensToRedeem(s, m, now, tokensIn, amountIn).Done?
    ensures TokensToRedeem(s, m, now, tokensIn, amountIn).value == TokensOfRedeem(StoredRate(s, m), tokensIn, amountIn)
  {
  }

  lemma SupposedRedeemMoves(s: AllowedSettings, m: Market, now: nat, action: Action, tokens: nat, m': Market)
    requires action.Redeem? && ExchangeRate.Inv(m)
    requires TokensToRedeem(s, m, now, action.tokensIn, action.amountIn) == Done(tokens)
    requires Apply(m, Step(s, now, action)) == Done(m')
    ensures Moves(s, m, m', action.redeemer, tokens, 0, RateAfterRedeem(s, m, tokens))
  {
    AppliedAs(m, s, now, action);
    SupposedTokens(s, m, now, action.tokensIn, action.amountIn);
    RedeemMoves(s, m, now, action.redeemer, action.tokensIn, action.amountIn, m');
  }

  lemma SupposedTransferMoves(s: AllowedSettings, m: Market, now: nat, action: Action, m': Market)
    requires action.Transfer? && Apply(m, Step(s, now, action)) == Done(m')
    ensures Moves(s, m, m', action.src, action.tokens, 0, StoredRate(s, m))
  {
    AppliedAs(m, s, now, action);
    TransferMovesPosition(s, m, action.src, action.dst, action.tokens, m');
  }

  lemma SupposedBorrowMoves(s: AllowedSettings, m: Market, now: nat, action: Action, m': Market)
    requires action.Borrow? && ExchangeRate.Inv(m) && Apply(m, Step(s, now, action)) == Done(m')
    ensures Moves(s, m, m', action.borrower, 0, action.amount, StoredRate(s, m))
  {
    AppliedAs(m, s, now, action);
    BorrowMoves(s, m, now, action.borrower, action.amount, m');
  }

  /// The vTokens and the amount of a checked call, and the rate after it, within its market.
  function Given(action: Action, tokens: nat): nat
    requires IsChecked(action)
  {
    if action.Redeem? then tokens else if action.Transfer? then action.tokens else 0
  }

  function Taken(action: Action): nat {
    if action.Borrow? then action.amount else 0
  }

  function RateAfter(s: Settings, m: Market, action: Action, given: nat): nat {
    if action.Redeem? then RateAfterRedeem(s, m, given) else StoredRate(s, m)
  }

  lemma SupposedMoves(s: AllowedSettings, m: Market, now: nat, action: Action, tokens: nat, m': Market)
    requires IsChecked(action) && ExchangeRate.Inv(m)
    requires action.Redeem? ==> TokensToRedeem(s, m, now, action.tokensIn, action.amountIn) == Done(tokens)
    requires Apply(m, Step(s, now, action)) == Done(m')
    ensures Moves(s, m, m', CheckedAccount(action), Given(action, tokens), Taken(action),
                  RateAfter(s, m, action, Given(action, tokens)))
  {
    if action.Redeem? {
      SupposedRedeemMoves(s, m, now, action, tokens, m');
    } else if action.Transfer? {
      SupposedTransferMoves(s, m, now, action, m');
    } else {
      SupposedBorrowMoves(s, m, now, action, m');
    }
  }

  lemma AppliedAs(m: Market, s: AllowedSettings, now: nat, action: Action)
    ensures action.Redeem? ==>
      Apply(m, Step(s, now, action)) == RedeemFresh(s, m, now, action.redeemer, action.tokensIn, action.amountIn)
    ensures action.Transfer? ==> Apply(m, Step(s, now, action)) == TransferTokens(m, action.src, action.dst, action.tokens)
    ensures action.Borrow? ==> Apply(m, Step(s, now, action)) == BorrowFresh(m, now, action.borrower, action.amount)
  {
  }

  ghost predicate MovesTo(p: Pool, mk: MarketId, m': Market, a: Account, e: Effect, rate: nat) {
    e.InMarket? && e.market == mk && Moves(SettingsOf(p, mk), MarketOf(p, mk), m', a, e.redeemTokens, e.borrowAmount, rate)
  }

  lemma RateOfIs(p: Pool, mk: MarketId)
    ensures RateOf(p, mk) == StoredRate(SettingsOf(p, mk), MarketOf(p, mk))
  {
  }

  lemma SupposedOf(p: Pool, mk: MarketId, now: nat, action: Action, tokens: nat)
    requires IsChecked(action) && HookedTokens(p, mk, now, action) == Done(tokens)
    ensures SupposedEffect(p, mk, now, action) == InMarket(mk, Given(action, tokens), Taken(action))
    ensures action.Redeem? ==> TokensToRedeem(SettingsOf(p, mk), MarketOf(p, mk), now, action.tokensIn, action.amountIn) == Done(tokens)
  {
  }

  // ---------- the account's whole list ----------

  lemma PositionAfterwards(p: Pool, mk: MarketId, m': Market, a: Account, e: Effect, rate: nat, asset: MarketId)
    requires MovesTo(p, mk, m', a, e, rate)
    ensures PositionOf(WithMarket(p, mk, m'), asset, a) == Liquidity.Applied(PositionOf(p, asset, a), e, rate)
  {
    MarketOfWith(p, mk, m', asset);
    if asset == mk {
      RateOfWith(p, mk, m');
    } else {
      RateElsewhere(p, mk, m', asset);
    }
  }

  lemma RateOfWith(p: Pool, mk: MarketId, m': Market)
    ensures RateOf(WithMarket(p, mk, m'), mk) == StoredRate(SettingsOf(p, mk), m')
  {
  }

  lemma RateElsewhere(p: Pool, mk: MarketId, m': Market, other: MarketId)
    requires other != mk
    ensures RateOf(WithMarket(p, mk, m'), other) == RateOf(p, other)
  {
  }

  lemma PositionsAfterwards(p: Pool, mk: MarketId, m': Market, a: Account, e: Effect, rate: nat, assets: seq<MarketId>)
    requires MovesTo(p, mk, m', a, e, rate)
    ensures var ps := Positions(p, a, assets);
      && Positions(WithMarket(p, mk, m'), a, assets) == AppliedAll(ps, e, rate)
      && Redeemable(ps, e) && RateHolds(ps, e, rate)
  {
    forall i | 0 <= i < |assets|
      ensures PositionOf(WithMarket(p, mk, m'), assets[i], a) == Liquidity.Applied(PositionOf(p, assets[i], a), e, rate)
    {
      PositionAfterwards(p, mk, m', a, e, rate, assets[i]);
    }
  }

  /// The comptroller has checked the account, if it is in the market.
  lemma HookChecks(s: State, mk: MarketId, now: nat, action: Action, tokens: nat, paused: set<AssetLists.Pausable>, s1: State)
    requires IsChecked(action) && HookedTokens(s.pool, mk, now, action) == Done(tokens)
    requires Hook(s, mk, action, tokens, paused) == Done(s1)
    ensures s1.pool == s.pool && mk in s1.lists.listed
    ensures (mk, CheckedAccount(action)) in s1.lists.members ==>
      CheckEffect(s1, CheckedAccount(action), SupposedEffect(s.pool, mk, now, action)).Done?
  {
  }

  lemma ElsewhereUnchanged(s: State, mk: MarketId, a: Account, e: Effect)
    requires Valid(s) && (mk, a) !in s.lists.members && (e.InMarket? ==> e.market == mk)
    ensures Elsewhere(Positions(s.pool, a, AssetsOf(s, a)), e)
  {
    AccountAssets(s, a);
  }

  lemma {:induction false} NothingElsewhere(ps: seq<Position>, w: Weight, e: Effect, rate: nat)
    requires Elsewhere(ps, e)
    ensures TotalGain(ps, w, e, rate) == 0 == TotalCarries(ps, w, e)
    decreases |ps|
  {
    if |ps| > 0 {
      NothingElsewhere(Front(ps), w, e, rate);
    }
  }

  lemma {:induction false} NoGainAtSameRate(p: Pool, a: Account, assets: seq<MarketId>, w: Weight, e: Effect)
    requires e.InMarket?
    ensures TotalGain(Positions(p, a, assets), w, e, StoredRate(SettingsOf(p, e.market), MarketOf(p, e.market))) == 0
    decreases |assets|
  {
    if |assets| > 0 {
      RateOfIs(p, e.market);
      var rest := assets[..|assets| - 1];
      assert Front(Positions(p, a, assets)) == Positions(p, a, rest);
      NoGainAtSameRate(p, a, rest, w, e);
    }
  }

  // ---------- after the call ----------

  /// The account as the check found it: a borrower has entered the market by then.
  function Checked(s: State, s': State, action: Action): seq<Position>
    requires IsChecked(action)
  {
    Positions(s.pool, CheckedAccount(action), AssetsOf(s.(lists := s'.lists), CheckedAccount(action)))
  }

  /// The account's standing against the thresholds once the call is over.
  function Standing(s': State, action: Action): Snapshot
    requires IsChecked(action)
  {
    SnapshotOf(Positions(s'.pool, CheckedAccount(action), AssetsOf(s', CheckedAccount(action))), LiquidationThreshold, NoEffect)
  }

  lemma CallForeseen(s: State, mk: MarketId, now: nat, action: Action, paused: set<AssetLists.Pausable>) returns (s1: State)
    requires Valid(s) && IsChecked(action) && CallMarket(s, mk, now, action, paused).Done?
    ensures var s', e := CallMarket(s, mk, now, action, paused).value, SupposedEffect(s.pool, mk, now, action);
      var a, ps, rate := CheckedAccount(action), Checked(s, s', action), RateAfterwards(s.pool, mk, action, e);
      && Valid(s1) && s1 == s.(lists := s'.lists) && ps == Positions(s1.pool, a, AssetsOf(s1, a))
      && e.InMarket? && e.market == mk
      && Positions(s'.pool, a, AssetsOf(s', a)) == AppliedAll(ps, e, rate)
      && Redeemable(ps, e) && RateHolds(ps, e, rate)
      && ((mk, a) in s'.lists.members ==> CheckEffect(s1, a, e).Done?)
  {
    var tokens, hooked, m := CallStages(s, mk, now, action, paused);
    s1 := hooked;
    HookKeepsValid(s, mk, action, tokens, paused);
    HookChecks(s, mk, now, action, tokens, paused, s1);
    assert SoundAt(s1.pool, mk);
    SupposedOf(s.pool, mk, now, action, tokens);
    SupposedMoves(SettingsOf(s.pool, mk), MarketOf(s.pool, mk), now, action, tokens, m);
    var e := SupposedEffect(s.pool, mk, now, action);
    assert MovesTo(s1.pool, mk, m, CheckedAccount(action), e, RateAfterwards(s.pool, mk, action, e));
    PositionsAfterwards(s1.pool, mk, m, CheckedAccount(action), e, RateAfterwards(s.pool, mk, action, e),
                        AssetsOf(s1, CheckedAccount(action)));
  }

  /// After a redeem, a transfer or a borrow in any pool reached from deployment. The account that gave up vTokens or
  /// borrowed is without a shortfall against the thresholds if and only if the surplus that the check computes for
  /// them, with what a new exchange rate adds, covers the carries; all of it is known before the call. What is added
  /// is never negative, and nothing without a redeem. Who is in the market lacks one unit at most; for who is not,
  /// the call changes nothing.
  lemma CheckedCallIsSafe(settings: map<MarketId, AllowedSettings>, prices: map<MarketId, nat>, incentive: nat, minimum: nat,
                          events: seq<Event>, mk: MarketId, now: nat, action: Action, paused: set<AssetLists.Pausable>)
    requires IsChecked(action)
    requires PoolRuns.Next(PoolRuns.Run(Deployed(settings, prices, incentive, minimum), events), Call(mk, now, action, paused)).Done?
    ensures var s := PoolRuns.Run(Deployed(settings, prices, incentive, minimum), events);
      var s', e := PoolRuns.Next(s, Call(mk, now, action, paused)).value, SupposedEffect(s.pool, mk, now, action);
      var ps, w, after := Checked(s, s', action), LiquidationThreshold, Standing(s', action);
      var gain := TotalGain(ps, w, e, RateAfterwards(s.pool, mk, action, e));
      && (after.shortfall == 0 <==> TotalCarries(ps, w, e) <= Surplus(ps, w, e) + gain)
      && 0 <= gain && (!action.Redeem? ==> gain == 0)
      && ((mk, CheckedAccount(action)) in s'.lists.members ==> after.shortfall <= 1)
      && ((mk, CheckedAccount(action)) !in s'.lists.members ==> after.shortfall == SnapshotOf(ps, w, NoEffect).shortfall)
  {
    var s := PoolRuns.Run(Deployed(settings, prices, incentive, minimum), events);
    DeployedIsValid(settings, prices, incentive, minimum);
    RunKeepsValid(Deployed(settings, prices, incentive, minimum), events);
    SafeAfterCall(s, mk, now, action, paused);
  }

  lemma SafeAfterCall(s: State, mk: MarketId, now: nat, action: Action, paused: set<AssetLists.Pausable>)
    requires Valid(s) && IsChecked(action) && CallMarket(s, mk, now, action, paused).Done?
    ensures var s', e := CallMarket(s, mk, now, action, paused).value, SupposedEffect(s.pool, mk, now, action);
      var ps, w, after := Checked(s, s', action), LiquidationThreshold, Standing(s', action);
      var gain := TotalGain(ps, w, e, RateAfterwards(s.pool, mk, action, e));
      && (after.shortfall == 0 <==> TotalCarries(ps, w, e) <= Surplus(ps, w, e) + gain)
      && 0 <= gain && (!action.Redeem? ==> gain == 0)
      && ((mk, CheckedAccount(action)) in s'.lists.members ==> after.shortfall <= 1)
      && ((mk, CheckedAccount(action)) !in s'.lists.members ==> after.shortfall == SnapshotOf(ps, w, NoEffect).shortfall)
  {
    var s1 := CallForeseen(s, mk, now, action, paused);
    var a, e := CheckedAccount(action), SupposedEffect(s.pool, mk, now, action);
    var ps, rate := Positions(s1.pool, a, AssetsOf(s1, a)), RateAfterwards(s.pool, mk, action, e);
    SafeAfterwards(ps, LiquidationThreshold, e, rate);
    GainNotNegative(ps, LiquidationThreshold, e, rate);
    if !action.Redeem? {
      NoGainAtSameRate(s1.pool, a, AssetsOf(s1, a), LiquidationThreshold, e);
    }
    if (mk, a) in s1.lists.members {
      PositionsInOrder(s1, a);
      CheckedAccountIsSafe(ps, e, rate);
    } else {
      ElsewhereUnchanged(s1, mk, a, e);
      NothingElsewhere(ps, LiquidationThreshold, e, rate);
      CheckForesees(ps, LiquidationThreshold, e, rate);
      NoEffectElsewhere(ps, LiquidationThreshold, e);
    }
  }

  lemma {:induction false} NoEffectElsewhere(ps: seq<Position>, w: Weight, e: Effect)
    requires Elsewhere(ps, e)
    ensures Surplus(ps, w, e) == Surplus(ps, w, NoEffect)
    decreases |ps|
  {
    if |ps| > 0 {
      NoEffectElsewhere(Front(ps), w, e);
    }
  }
}

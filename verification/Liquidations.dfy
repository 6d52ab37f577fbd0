/** Forced liquidation of whole accounts: a list of orders, each of which repays a part of a borrow and seizes
    collateral for it, and what all of them together move. */
module Liquidations {
  import opened FixedPoint
  import opened Totals
  import opened Outcomes
  import opened Ledger
  import opened ExchangeRate
  import opened Borrowers
  import opened Operations
  import opened Liquidity
  import opened Pools
  import opened SmallAccounts

  datatype Order = Order(borrowed: MarketId, collateral: MarketId, repayAmount: nat, fee: nat)

  /// The collateral tokens given for a repayment.
  function SeizeTokens(priceBorrowed: nat, priceCollateral: nat, rate: nat, incentive: nat, repaid: nat): Outcome<nat> {
    if priceBorrowed == 0 || priceCollateral == 0 then Revert(PriceError)
    else
      var numerator, denominator := MulTruncate(incentive, priceBorrowed), MulTruncate(priceCollateral, rate);
      if denominator == 0 then Revert(Panic)
      else Done(MulTruncate(DivTruncate(numerator, denominator), repaid))
  }

  /// The collateral seized is worth at most the repayment with the incentive.
  lemma SeizedWithinIncentive(priceBorrowed: nat, priceCollateral: nat, rate: nat, incentive: nat, repaid: nat)
    requires SeizeTokens(priceBorrowed, priceCollateral, rate, incentive, repaid).Done?
    ensures SeizeTokens(priceBorrowed, priceCollateral, rate, incentive, repaid).value
              * MulTruncate(priceCollateral, rate) * EXP_SCALE
         <= incentive * priceBorrowed * repaid
  {
    var n, d := MulTruncate(incentive, priceBorrowed), MulTruncate(priceCollateral, rate);
    SeizeArithmetic(n, d, incentive * priceBorrowed, repaid);
  }

  /// And at least that, short of one vToken and of the ratio's last digit for each unit repaid.
  lemma SeizedCoversRepayment(priceBorrowed: nat, priceCollateral: nat, rate: nat, incentive: nat, repaid: nat)
    requires SeizeTokens(priceBorrowed, priceCollateral, rate, incentive, repaid).Done?
    ensures var tokens := SeizeTokens(priceBorrowed, priceCollateral, rate, incentive, repaid).value;
      var price := MulTruncate(priceCollateral, rate);
      MulTruncate(incentive, priceBorrowed) * EXP_SCALE * repaid <= (tokens + 1) * price * EXP_SCALE + price * repaid
  {
    var n, d := MulTruncate(incentive, priceBorrowed), MulTruncate(priceCollateral, rate);
    SeizedAtLeast(n, d, repaid, DivTruncate(n, d), MulTruncate(DivTruncate(n, d), repaid));
  }

  lemma SeizedAtLeast(n: nat, d: nat, repaid: nat, ratio: nat, seized: nat)
    requires 0 < d && ratio == DivTruncate(n, d) && seized == MulTruncate(ratio, repaid)
    ensures n * EXP_SCALE * repaid <= (seized + 1) * d * EXP_SCALE + d * repaid
  {
    DivBounds(n * EXP_SCALE, d, ratio + 1);
    DivBounds(ratio * repaid, EXP_SCALE, seized + 1);
    MulLe(n * EXP_SCALE, (ratio + 1) * d, repaid);
    assert (ratio + 1) * d * repaid == ratio * repaid * d + d * repaid;
    MulLe(ratio * repaid, (seized + 1) * EXP_SCALE, d);
    assert (seized + 1) * EXP_SCALE * d == (seized + 1) * d * EXP_SCALE;
  }

  lemma SeizeArithmetic(n: nat, d: nat, x: nat, repaid: nat)
    requires 0 < d && n == x / EXP_SCALE
    ensures MulTruncate(DivTruncate(n, d), repaid) * d * EXP_SCALE <= x * repaid
  {
    var ratio := DivTruncate(n, d);
    var seized := MulTruncate(ratio, repaid);
    DivBounds(x, EXP_SCALE, n);
    DivBounds(n * EXP_SCALE, d, ratio);
    DivBounds(ratio * repaid, EXP_SCALE, seized);
    MulLe(seized * EXP_SCALE, ratio * repaid, d);
    assert seized * EXP_SCALE * d == seized * d * EXP_SCALE;
    MulLe(ratio * d, n * EXP_SCALE, repaid);
    assert ratio * repaid * d == ratio * d * repaid;
    MulLe(n * EXP_SCALE, x, repaid);
  }

  /// Repaying an order, in a pool whose two markets are fresh.
  function Repaid(p: Pool, now: nat, liquidator: Account, user: Account, o: Order): Outcome<Pool> {
    var m := MarketOf(p, o.borrowed);
    if o.repayAmount > Balance(m, user) then Revert(TooMuchRepay)
    else if user == liquidator then Revert(LiquidatorIsBorrower)
    else if o.repayAmount == 0 then Revert(CloseAmountIsZero)
    else match RepayBorrowFresh(m, now, user, o.repayAmount, o.fee)
      case Revert(e) => Revert(e)
      case Done(m') => Done(WithMarket(p, o.borrowed, m'))
  }

  function Seized(p: Pool, liquidator: Account, user: Account, mk: MarketId, tokens: nat): Outcome<Pool> {
    if Tokens(p, mk, user) < tokens then Revert(SeizeTooMuch)
    else match Seize(SettingsOf(p, mk), MarketOf(p, mk), liquidator, user, tokens)
      case Revert(e) => Revert(e)
      case Done(m) => Done(WithMarket(p, mk, m))
  }

  /// Both markets of an order brought up to date.
  function AccruedBoth(p: Pool, now: nat, rates: map<MarketId, nat>, o: Order): Outcome<Pool> {
    match Accrued(p, o.borrowed, now, rates)
    case Revert(e) => Revert(e)
    case Done(p1) => Accrued(p1, o.collateral, now, rates)
  }

  function TokensFor(p: Pool, o: Order): Outcome<nat> {
    SeizeTokens(Get(p.prices, o.borrowed), Get(p.prices, o.collateral), RateOf(p, o.collateral), p.incentive,
                Arrives(o.repayAmount, o.fee))
  }

  /// The listed markets, and those of them that the account to be liquidated has entered.
  datatype Access = Access(listed: set<MarketId>, entered: set<MarketId>)

  /// One forced liquidation: both markets have to be listed, they accrue, the order is repaid and collateral
  /// seized for it, of a market that the account has entered.
  function Execute(p: Pool, access: Access, now: nat, rates: map<MarketId, nat>, liquidator: Account,
                   user: Account, o: Order): Outcome<Pool>
  {
    if o.borrowed !in access.listed || o.collateral !in access.listed then Revert(MarketNotListed)
    else match AccruedBoth(p, now, rates, o)
      case Revert(e) => Revert(e)
      case Done(p1) =>
        match Repaid(p1, now, liquidator, user, o)
        case Revert(e) => Revert(e)
        case Done(p2) =>
          match TokensFor(p2, o)
          case Revert(e) => Revert(e)
          case Done(tokens) =>
            if Tokens(p2, o.collateral, user) < tokens then Revert(SeizeTooMuch)
            else if o.collateral !in access.entered then Revert(MarketNotCollateral)
            else Seized(p2, liquidator, user, o.collateral, tokens)
  }

  function ExecuteAll(p: Pool, access: Access, now: nat, rates: map<MarketId, nat>, liquidator: Account,
                      user: Account, orders: seq<Order>): Outcome<Pool>
    decreases |orders|
  {
    if |orders| == 0 then Done(p)
    else match Execute(p, access, now, rates, liquidator, user, orders[0])
      case Revert(e) => Revert(e)
      case Done(p') => ExecuteAll(p', access, now, rates, liquidator, user, orders[1..])
  }

  function LiquidateAccount(p: Pool, access: Access, now: nat, rates: map<MarketId, nat>, liquidator: Account,
                            user: Account, assets: seq<MarketId>, orders: seq<Order>): Outcome<Pool>
  {
    match Health(p, user, assets)
    case Revert(e) => Revert(e)
    case Done(s) =>
      match LiquidationCheck(s, p.minLiquidatableCollateral, p.incentive)
      case Revert(e) => Revert(e)
      case Done(_) =>
        match ExecuteAll(p, access, now, rates, liquidator, user, orders)
        case Revert(e) => Revert(e)
        case Done(p') =>
          if exists i :: 0 <= i < |assets| && Debt(p', assets[i], user) != 0 then Revert(NotFullyPaid) else Done(p')
  }

  // ---------- what moves in one market ----------

  ghost predicate SameBorrow(m: Market, m': Market, a: Account) {
    && (a in m.accountBorrows <==> a in m'.accountBorrows)
    && (a in m.accountBorrows ==> m'.accountBorrows[a] == m.accountBorrows[a])
  }

  /// `seized` vTokens leave the user, for the liquidator and, burnt, for the protocol; nobody else's tokens, and
  /// nobody but the user's recorded borrow, change; and nothing is written off.
  ghost predicate Moved(m: Market, m': Market, user: Account, liquidator: Account, seized: nat) {
    && Get(m'.accountTokens, user) == Get(m.accountTokens, user) - seized
    && Get(m.accountTokens, liquidator) <= Get(m'.accountTokens, liquidator) && m'.totalSupply <= m.totalSupply
    && (Get(m'.accountTokens, liquidator) - Get(m.accountTokens, liquidator)) + (m.totalSupply - m'.totalSupply) == seized
    && OnlyTokensOf(m, m', {user, liquidator})
    && (forall a | a != user :: SameBorrow(m, m', a))
    && m'.badDebt == m.badDebt
  }

  lemma MovedBoth(m: Market, m1: Market, m2: Market, user: Account, liquidator: Account, x: nat, y: nat)
    requires Moved(m, m1, user, liquidator, x) && Moved(m1, m2, user, liquidator, y)
    ensures Moved(m, m2, user, liquidator, x + y)
  {
    forall a | a !in {user, liquidator}
      ensures Get(m2.accountTokens, a) == Get(m.accountTokens, a)
    {
    }
    forall a | a != user
      ensures SameBorrow(m, m2, a)
    {
      assert SameBorrow(m, m1, a) && SameBorrow(m1, m2, a);
    }
  }

  lemma SeizeMoves(s: Settings, m: Market, liquidator: Account, user: Account, tokens: nat)
    requires Seize(s, m, liquidator, user, tokens).Done?
    ensures liquidator != user && Moved(m, Seize(s, m, liquidator, user, tokens).value, user, liquidator, tokens)
  {
    SeizeSplits(s, m, liquidator, user, tokens);
  }

  lemma RepayMoves(m: Market, now: nat, user: Account, amount: nat, fee: nat, liquidator: Account)
    requires RepayBorrowFresh(m, now, user, amount, fee).Done? && liquidator != user
    ensures Moved(m, RepayBorrowFresh(m, now, user, amount, fee).value, user, liquidator, 0)
  {
  }

  /// The same in every market of a pool; `seized` says how much in each.
  ghost predicate PoolMoved(p: Pool, p': Pool, user: Account, liquidator: Account, seized: map<MarketId, nat>) {
    && p' == p.(markets := p'.markets)
    && forall mk :: MovedAt(p, p', user, liquidator, seized, mk)
  }

  ghost predicate MovedAt(p: Pool, p': Pool, user: Account, liquidator: Account, seized: map<MarketId, nat>, mk: MarketId) {
    Moved(MarketOf(p, mk), MarketOf(p', mk), user, liquidator, Get(seized, mk))
  }

  const NONE: map<MarketId, nat> := map[]

  function Sum(x: map<MarketId, nat>, y: map<MarketId, nat>): map<MarketId, nat> {
    map mk | mk in x.Keys + y.Keys :: Get(x, mk) + Get(y, mk)
  }

  lemma SumEntry(x: map<MarketId, nat>, y: map<MarketId, nat>, mk: MarketId)
    ensures Get(Sum(x, y), mk) == Get(x, mk) + Get(y, mk)
  {
  }

  function Only(mk: MarketId, n: nat): map<MarketId, nat> {
    map[mk := n]
  }

  lemma PoolMovedBoth(p: Pool, p1: Pool, p2: Pool, user: Account, liquidator: Account, x: map<MarketId, nat>, y: map<MarketId, nat>)
    requires PoolMoved(p, p1, user, liquidator, x) && PoolMoved(p1, p2, user, liquidator, y)
    ensures PoolMoved(p, p2, user, liquidator, Sum(x, y))
  {
    forall mk
      ensures MovedAt(p, p2, user, liquidator, Sum(x, y), mk)
    {
      assert MovedAt(p, p1, user, liquidator, x, mk) && MovedAt(p1, p2, user, liquidator, y, mk);
      SumEntry(x, y, mk);
      MovedBoth(MarketOf(p, mk), MarketOf(p1, mk), MarketOf(p2, mk), user, liquidator, Get(x, mk), Get(y, mk));
    }
  }

  lemma SameSeized(p: Pool, p': Pool, user: Account, liquidator: Account, x: map<MarketId, nat>, y: map<MarketId, nat>)
    requires PoolMoved(p, p', user, liquidator, x) && forall mk :: Get(x, mk) == Get(y, mk)
    ensures PoolMoved(p, p', user, liquidator, y)
  {
    forall mk
      ensures MovedAt(p, p', user, liquidator, y, mk)
    {
      assert MovedAt(p, p', user, liquidator, x, mk);
    }
  }

  lemma MovedNowhere(m: Market, user: Account, liquidator: Account)
    ensures Moved(m, m, user, liquidator, 0)
  {
  }

  lemma OneMarketMoved(p: Pool, mk: MarketId, m: Market, user: Account, liquidator: Account, seized: nat)
    requires Moved(MarketOf(p, mk), m, user, liquidator, seized) && user != liquidator
    ensures PoolMoved(p, WithMarket(p, mk, m), user, liquidator, Only(mk, seized))
  {
    forall other
      ensures MovedAt(p, WithMarket(p, mk, m), user, liquidator, Only(mk, seized), other)
    {
      MarketOfWith(p, mk, m, other);
      MovedNowhere(MarketOf(p, other), user, liquidator);
    }
  }

  lemma InterestMovesNothing(p: Pool, p': Pool, user: Account, liquidator: Account)
    requires OnlyInterest(p, p')
    ensures PoolMoved(p, p', user, liquidator, NONE)
  {
    forall mk
      ensures MovedAt(p, p', user, liquidator, NONE, mk)
    {
      assert MarketOf(p', mk).accountTokens == MarketOf(p, mk).accountTokens;
    }
  }

  // ---------- one order ----------

  lemma RepaidStage(p: Pool, now: nat, liquidator: Account, user: Account, o: Order) returns (m: Market)
    requires Repaid(p, now, liquidator, user, o).Done?
    ensures RepayBorrowFresh(MarketOf(p, o.borrowed), now, user, o.repayAmount, o.fee) == Done(m)
    ensures Repaid(p, now, liquidator, user, o).value == WithMarket(p, o.borrowed, m)
    ensures o.repayAmount <= Balance(MarketOf(p, o.borrowed), user) && liquidator != user
  {
    m := RepayBorrowFresh(MarketOf(p, o.borrowed), now, user, o.repayAmount, o.fee).value;
  }

  lemma SeizedStage(p: Pool, liquidator: Account, user: Account, mk: MarketId, tokens: nat) returns (m: Market)
    requires Seized(p, liquidator, user, mk, tokens).Done?
    ensures Seize(SettingsOf(p, mk), MarketOf(p, mk), liquidator, user, tokens) == Done(m)
    ensures Seized(p, liquidator, user, mk, tokens).value == WithMarket(p, mk, m)
  {
    m := Seize(SettingsOf(p, mk), MarketOf(p, mk), liquidator, user, tokens).value;
  }

  /// Of what is seized in a market, the protocol keeps the part that the market's share is of the pool's present
  /// incentive, less than one vToken down; the liquidator gets the rest. No other market changes.
  lemma SeizureIsShared(p: Pool, liquidator: Account, user: Account, mk: MarketId, tokens: nat, other: MarketId)
    requires mk in p.settings && Seized(p, liquidator, user, mk, tokens).Done?
    ensures var p' := Seized(p, liquidator, user, mk, tokens).value;
      var kept := MarketOf(p, mk).totalSupply - MarketOf(p', mk).totalSupply;
      && 0 <= kept <= tokens && Tokens(p', mk, user) == Tokens(p, mk, user) - tokens
      && Tokens(p', mk, liquidator) == Tokens(p, mk, liquidator) + tokens - kept
      && kept * p.incentive <= MulTruncate(tokens, p.settings[mk].protocolSeizeShare) * EXP_SCALE < (kept + 1) * p.incentive
      && (other != mk ==> MarketOf(p', other) == MarketOf(p, other))
  {
    SeizeSplits(SettingsOf(p, mk), MarketOf(p, mk), liquidator, user, tokens);
  }

  lemma RepaidKeeps(p: Pool, now: nat, liquidator: Account, user: Account, o: Order, m: Market)
    requires Sound(p) && RepayBorrowFresh(MarketOf(p, o.borrowed), now, user, o.repayAmount, o.fee) == Done(m)
    ensures Sound(WithMarket(p, o.borrowed, m))
  {
    var step := Step(SettingsOf(p, o.borrowed), now, Repay(user, o.repayAmount, o.fee));
    CallKeepsSound(p, o.borrowed, step, m);
  }

  lemma SeizedKeeps(p: Pool, liquidator: Account, user: Account, mk: MarketId, tokens: nat, m: Market)
    requires Sound(p) && Seize(SettingsOf(p, mk), MarketOf(p, mk), liquidator, user, tokens) == Done(m)
    ensures Sound(WithMarket(p, mk, m))
  {
    var step := Step(SettingsOf(p, mk), 0, SeizeCollateral(liquidator, user, tokens));
    CallKeepsSound(p, mk, step, m);
  }

  lemma RepaidMoves(p: Pool, now: nat, liquidator: Account, user: Account, o: Order, m: Market)
    requires RepayBorrowFresh(MarketOf(p, o.borrowed), now, user, o.repayAmount, o.fee) == Done(m) && liquidator != user
    ensures PoolMoved(p, WithMarket(p, o.borrowed, m), user, liquidator, Only(o.borrowed, 0))
  {
    RepayMoves(MarketOf(p, o.borrowed), now, user, o.repayAmount, o.fee, liquidator);
    OneMarketMoved(p, o.borrowed, m, user, liquidator, 0);
  }

  lemma SeizedMoves(p: Pool, liquidator: Account, user: Account, mk: MarketId, tokens: nat, m: Market)
    requires Seize(SettingsOf(p, mk), MarketOf(p, mk), liquidator, user, tokens) == Done(m)
    ensures PoolMoved(p, WithMarket(p, mk, m), user, liquidator, Only(mk, tokens))
  {
    SeizeMoves(SettingsOf(p, mk), MarketOf(p, mk), liquidator, user, tokens);
    OneMarketMoved(p, mk, m, user, liquidator, tokens);
  }

  lemma AccruedBothKeeps(p: Pool, now: nat, rates: map<MarketId, nat>, o: Order)
    requires Sound(p) && AccruedBoth(p, now, rates, o).Done?
    ensures var p1 := AccruedBoth(p, now, rates, o).value; Sound(p1) && OnlyInterest(p, p1)
  {
    AccrualKeeps(p, o.borrowed, now, rates);
    AccrualKeeps(Accrued(p, o.borrowed, now, rates).value, o.collateral, now, rates);
  }

  /// The pool an order's collateral is valued in: after its accruals and its repayment.
  function Valued(p: Pool, now: nat, rates: map<MarketId, nat>, liquidator: Account, user: Account, o: Order): Outcome<Pool> {
    match AccruedBoth(p, now, rates, o)
    case Revert(e) => Revert(e)
    case Done(p1) => Repaid(p1, now, liquidator, user, o)
  }

  /// The collateral tokens an order takes.
  function OrderTokens(p: Pool, now: nat, rates: map<MarketId, nat>, liquidator: Account, user: Account, o: Order): nat {
    match Valued(p, now, rates, liquidator, user, o)
    case Revert(_) => 0
    case Done(p2) => if TokensFor(p2, o).Done? then TokensFor(p2, o).value else 0
  }

  lemma ExecuteStages(p: Pool, access: Access, now: nat, rates: map<MarketId, nat>, liquidator: Account, user: Account, o: Order)
    returns (p1: Pool, p2: Pool, tokens: nat)
    requires Execute(p, access, now, rates, liquidator, user, o).Done?
    ensures AccruedBoth(p, now, rates, o) == Done(p1) && Repaid(p1, now, liquidator, user, o) == Done(p2)
    ensures Valued(p, now, rates, liquidator, user, o) == Done(p2) && TokensFor(p2, o) == Done(tokens)
    ensures tokens == OrderTokens(p, now, rates, liquidator, user, o)
    ensures Seized(p2, liquidator, user, o.collateral, tokens) == Execute(p, access, now, rates, liquidator, user, o)
    ensures o.borrowed in access.listed && o.collateral in access.listed && o.collateral in access.entered
  {
    p1 := AccruedBoth(p, now, rates, o).value;
    p2 := Repaid(p1, now, liquidator, user, o).value;
    tokens := TokensFor(p2, o).value;
  }

  /// What an order's three stages move.
  lemma StagesMove(p: Pool, p1: Pool, p2: Pool, p': Pool, user: Account, liquidator: Account, o: Order, tokens: nat)
    requires PoolMoved(p, p1, user, liquidator, NONE) && PoolMoved(p1, p2, user, liquidator, Only(o.borrowed, 0))
    requires PoolMoved(p2, p', user, liquidator, Only(o.collateral, tokens))
    ensures PoolMoved(p, p', user, liquidator, Only(o.collateral, tokens))
  {
    PoolMovedBoth(p, p1, p2, user, liquidator, NONE, Only(o.borrowed, 0));
    PoolMovedBoth(p, p2, p', user, liquidator, Sum(NONE, Only(o.borrowed, 0)), Only(o.collateral, tokens));
    forall mk
      ensures Get(Sum(Sum(NONE, Only(o.borrowed, 0)), Only(o.collateral, tokens)), mk) == Get(Only(o.collateral, tokens), mk)
    {
      SumEntry(NONE, Only(o.borrowed, 0), mk);
      SumEntry(Sum(NONE, Only(o.borrowed, 0)), Only(o.collateral, tokens), mk);
    }
    SameSeized(p, p', user, liquidator, Sum(Sum(NONE, Only(o.borrowed, 0)), Only(o.collateral, tokens)),
               Only(o.collateral, tokens));
  }

  /// An order keeps the pool sound, takes its tokens from the user for liquidator and protocol, and touches
  /// nobody else.
  lemma OrderMoves(p: Pool, access: Access, now: nat, rates: map<MarketId, nat>, liquidator: Account, user: Account,
                   o: Order, p': Pool)
    requires Sound(p) && Execute(p, access, now, rates, liquidator, user, o) == Done(p')
    ensures Sound(p') && user != liquidator
    ensures PoolMoved(p, p', user, liquidator, Only(o.collateral, OrderTokens(p, now, rates, liquidator, user, o)))
  {
    var p1, p2, tokens := ExecuteStages(p, access, now, rates, liquidator, user, o);
    AccruedBothKeeps(p, now, rates, o);
    var m := RepaidStage(p1, now, liquidator, user, o);
    var m' := SeizedStage(p2, liquidator, user, o.collateral, tokens);
    StagesKeepSound(p1, now, liquidator, user, o, m, tokens, m');
    InterestMovesNothing(p, p1, user, liquidator);
    RepaidMoves(p1, now, liquidator, user, o, m);
    SeizedMoves(p2, liquidator, user, o.collateral, tokens, m');
    StagesMove(p, p1, p2, p', user, liquidator, o, tokens);
  }

  lemma StagesKeepSound(p: Pool, now: nat, liquidator: Account, user: Account, o: Order, m: Market, tokens: nat, m': Market)
    requires Sound(p) && RepayBorrowFresh(MarketOf(p, o.borrowed), now, user, o.repayAmount, o.fee) == Done(m)
    requires var p2 := WithMarket(p, o.borrowed, m);
      Seize(SettingsOf(p2, o.collateral), MarketOf(p2, o.collateral), liquidator, user, tokens) == Done(m')
    ensures Sound(WithMarket(WithMarket(p, o.borrowed, m), o.collateral, m'))
  {
    RepaidKeeps(p, now, liquidator, user, o, m);
    SeizedKeeps(WithMarket(p, o.borrowed, m), liquidator, user, o.collateral, tokens, m');
  }

  lemma PartRepaid(m: Market, now: nat, user: Account, amount: nat, fee: nat, m': Market)
    requires Inv(m) && RepayBorrowFresh(m, now, user, amount, fee) == Done(m') && amount <= Balance(m, user)
    ensures Balance(m', user) == Balance(m, user) - Arrives(amount, fee)
  {
    RepayAddsUp(m, now, user, amount, fee);
  }

  lemma SeizeKeepsDebts(s: Settings, m: Market, liquidator: Account, user: Account, tokens: nat, a: Account)
    requires Seize(s, m, liquidator, user, tokens).Done?
    ensures Balance(Seize(s, m, liquidator, user, tokens).value, a) == Balance(m, a)
  {
    SameBorrowsSameBalances(m, Seize(s, m, liquidator, user, tokens).value);
  }

  /// And it lowers the borrow it repays, as it stands once accrued, by exactly what arrives.
  lemma OrderRepays(p: Pool, access: Access, now: nat, rates: map<MarketId, nat>, liquidator: Account, user: Account, o: Order)
    requires Sound(p) && Execute(p, access, now, rates, liquidator, user, o).Done?
    ensures AccruedBoth(p, now, rates, o).Done?
    ensures Debt(Execute(p, access, now, rates, liquidator, user, o).value, o.borrowed, user)
         == Debt(AccruedBoth(p, now, rates, o).value, o.borrowed, user) - Arrives(o.repayAmount, o.fee)
  {
    var p1, p2, tokens := ExecuteStages(p, access, now, rates, liquidator, user, o);
    AccruedBothKeeps(p, now, rates, o);
    var m := RepaidStage(p1, now, liquidator, user, o);
    assert SoundAt(p1, o.borrowed);
    PartRepaid(MarketOf(p1, o.borrowed), now, user, o.repayAmount, o.fee, m);
    MarketOfWith(p1, o.borrowed, m, o.borrowed);
    var m' := SeizedStage(p2, liquidator, user, o.collateral, tokens);
    MarketOfWith(p2, o.collateral, m', o.borrowed);
    SeizeKeepsDebts(SettingsOf(p2, o.collateral), MarketOf(p2, o.collateral), liquidator, user, tokens, user);
  }

  // ---------- all orders ----------

  /// What all orders take in each market.
  function SeizedTokens(p: Pool, access: Access, now: nat, rates: map<MarketId, nat>, liquidator: Account,
                        user: Account, orders: seq<Order>): map<MarketId, nat>
    decreases |orders|
  {
    if |orders| == 0 then NONE
    else
      var o := orders[0];
      var tokens := Only(o.collateral, OrderTokens(p, now, rates, liquidator, user, o));
      match Execute(p, access, now, rates, liquidator, user, o)
      case Revert(_) => NONE
      case Done(p') => Sum(tokens, SeizedTokens(p', access, now, rates, liquidator, user, orders[1..]))
  }

  lemma {:induction false} OrdersMove(p: Pool, access: Access, now: nat, rates: map<MarketId, nat>,
                                      liquidator: Account, user: Account, orders: seq<Order>)
    requires Sound(p) && ExecuteAll(p, access, now, rates, liquidator, user, orders).Done?
    ensures var p' := ExecuteAll(p, access, now, rates, liquidator, user, orders).value;
      && Sound(p')
      && PoolMoved(p, p', user, liquidator, SeizedTokens(p, access, now, rates, liquidator, user, orders))
    decreases |orders|
  {
    if |orders| == 0 {
      InterestMovesNothing(p, p, user, liquidator);
    } else {
      var o := orders[0];
      var p1 := Execute(p, access, now, rates, liquidator, user, o).value;
      OrderMoves(p, access, now, rates, liquidator, user, o, p1);
      OrdersMove(p1, access, now, rates, liquidator, user, orders[1..]);
      PoolMovedBoth(p, p1, ExecuteAll(p, access, now, rates, liquidator, user, orders).value, user, liquidator,
                    Only(o.collateral, OrderTokens(p, now, rates, liquidator, user, o)),
                    SeizedTokens(p1, access, now, rates, liquidator, user, orders[1..]));
    }
  }

  /// The value, times 1e18, of an order's collateral at its own rate, and of its repayment with the incentive.
  function CollateralValue(p: Pool, now: nat, rates: map<MarketId, nat>, liquidator: Account, user: Account, o: Order): nat {
    match Valued(p, now, rates, liquidator, user, o)
    case Revert(_) => 0
    case Done(p2) =>
      OrderTokens(p, now, rates, liquidator, user, o) * MulTruncate(Get(p.prices, o.collateral), RateOf(p2, o.collateral)) * EXP_SCALE
  }

  function IncentivisedValue(p: Pool, o: Order): nat {
    p.incentive * Get(p.prices, o.borrowed) * Arrives(o.repayAmount, o.fee)
  }

  lemma OrderWithinIncentive(p: Pool, access: Access, now: nat, rates: map<MarketId, nat>, liquidator: Account,
                             user: Account, o: Order)
    requires Sound(p) && Execute(p, access, now, rates, liquidator, user, o).Done?
    ensures CollateralValue(p, now, rates, liquidator, user, o) <= IncentivisedValue(p, o)
  {
    var p1, p2, tokens := ExecuteStages(p, access, now, rates, liquidator, user, o);
    AccruedBothKeeps(p, now, rates, o);
    var _ := RepaidStage(p1, now, liquidator, user, o);
    SeizedWithinIncentive(Get(p.prices, o.borrowed), Get(p.prices, o.collateral), RateOf(p2, o.collateral), p.incentive,
                          Arrives(o.repayAmount, o.fee));
  }

  /// Over all orders.
  function TotalCollateralValue(p: Pool, access: Access, now: nat, rates: map<MarketId, nat>, liquidator: Account,
                                user: Account, orders: seq<Order>): nat
    decreases |orders|
  {
    if |orders| == 0 then 0
    else match Execute(p, access, now, rates, liquidator, user, orders[0])
      case Revert(_) => 0
      case Done(p') => CollateralValue(p, now, rates, liquidator, user, orders[0])
                       + TotalCollateralValue(p', access, now, rates, liquidator, user, orders[1..])
  }

  function TotalIncentivisedValue(p: Pool, orders: seq<Order>): nat
    decreases |orders|
  {
    if |orders| == 0 then 0 else IncentivisedValue(p, orders[0]) + TotalIncentivisedValue(p, orders[1..])
  }

  lemma {:induction false} SameTerms(p: Pool, p': Pool, orders: seq<Order>)
    requires p' == p.(markets := p'.markets)
    ensures TotalIncentivisedValue(p', orders) == TotalIncentivisedValue(p, orders)
    decreases |orders|
  {
    if |orders| > 0 {
      SameTerms(p, p', orders[1..]);
    }
  }

  lemma {:induction false} OrdersWithinIncentive(p: Pool, access: Access, now: nat, rates: map<MarketId, nat>,
                                                 liquidator: Account, user: Account, orders: seq<Order>)
    requires Sound(p) && ExecuteAll(p, access, now, rates, liquidator, user, orders).Done?
    ensures TotalCollateralValue(p, access, now, rates, liquidator, user, orders) <= TotalIncentivisedValue(p, orders)
    decreases |orders|
  {
    if |orders| > 0 {
      var p1 := Execute(p, access, now, rates, liquidator, user, orders[0]).value;
      OrderWithinIncentive(p, access, now, rates, liquidator, user, orders[0]);
      OrderMoves(p, access, now, rates, liquidator, user, orders[0], p1);
      OrdersWithinIncentive(p1, access, now, rates, liquidator, user, orders[1..]);
      SameTerms(p, p1, orders[1..]);
    }
  }

  lemma OrderIsAllowed(p: Pool, access: Access, now: nat, rates: map<MarketId, nat>, liquidator: Account, user: Account, o: Order)
    requires Execute(p, access, now, rates, liquidator, user, o).Done?
    ensures Allowed(access, liquidator, user, o)
  {
  }

  lemma FirstOrder(p: Pool, access: Access, now: nat, rates: map<MarketId, nat>, liquidator: Account, user: Account,
                   orders: seq<Order>) returns (p1: Pool)
    requires |orders| > 0 && ExecuteAll(p, access, now, rates, liquidator, user, orders).Done?
    ensures Allowed(access, liquidator, user, orders[0])
    ensures ExecuteAll(p1, access, now, rates, liquidator, user, orders[1..]).Done?
  {
    p1 := Execute(p, access, now, rates, liquidator, user, orders[0]).value;
    OrderIsAllowed(p, access, now, rates, liquidator, user, orders[0]);
  }

  /// Which orders may go through at all.
  predicate Allowed(access: Access, liquidator: Account, user: Account, o: Order) {
    && o.borrowed in access.listed && o.collateral in access.listed && o.collateral in access.entered
    && user != liquidator && 0 < o.repayAmount
  }

  /// Orders that go through are of listed markets, and of collateral that the account has entered.
  lemma {:induction false} OrdersAreAllowed(p: Pool, access: Access, now: nat, rates: map<MarketId, nat>, liquidator: Account,
                                            user: Account, orders: seq<Order>, i: nat)
    requires i < |orders| && ExecuteAll(p, access, now, rates, liquidator, user, orders).Done?
    ensures Allowed(access, liquidator, user, orders[i])
    decreases |orders|
  {
    var p1 := FirstOrder(p, access, now, rates, liquidator, user, orders);
    if i > 0 {
      OrdersAreAllowed(p1, access, now, rates, liquidator, user, orders[1..], i - 1);
    }
  }

  /// There are tokens enough for what an order seizes, in a market entered, and the seizure itself passes.
  predicate SeizurePasses(p: Pool, access: Access, liquidator: Account, user: Account, o: Order) {
    && TokensFor(p, o).Done? && TokensFor(p, o).value <= Tokens(p, o.collateral, user) && o.collateral in access.entered
    && Seize(SettingsOf(p, o.collateral), MarketOf(p, o.collateral), liquidator, user, TokensFor(p, o).value).Done?
  }

  /// An order passes exactly between listed markets that accrue, for another's borrow, for something, for no more than
  /// is owed, when what arrives is within totalBorrows, and when the collateral for it can be seized.
  lemma OrderPasses(p: Pool, access: Access, now: nat, rates: map<MarketId, nat>, liquidator: Account, user: Account, o: Order)
    requires Sound(p)
    ensures Execute(p, access, now, rates, liquidator, user, o).Done? <==>
      (&& o.borrowed in access.listed && o.collateral in access.listed && AccruedBoth(p, now, rates, o).Done?
       && var p1 := AccruedBoth(p, now, rates, o).value;
          && 0 < o.repayAmount <= Debt(p1, o.borrowed, user) && user != liquidator
          && MarketOf(p1, o.borrowed).accrualBlock == now && Arrives(o.repayAmount, o.fee) <= MarketOf(p1, o.borrowed).totalBorrows
          && SeizurePasses(Repaid(p1, now, liquidator, user, o).value, access, liquidator, user, o))
  {
    if AccruedBoth(p, now, rates, o).Done? {
      var p1 := AccruedBoth(p, now, rates, o).value;
      AccruedBothKeeps(p, now, rates, o);
      assert SoundAt(p1, o.borrowed);
      RepaidPasses(p1, now, liquidator, user, o);
    }
  }

  lemma RepaidPasses(p: Pool, now: nat, liquidator: Account, user: Account, o: Order)
    requires SoundAt(p, o.borrowed)
    ensures Repaid(p, now, liquidator, user, o).Done? <==>
      (&& 0 < o.repayAmount <= Debt(p, o.borrowed, user) && user != liquidator
       && MarketOf(p, o.borrowed).accrualBlock == now && Arrives(o.repayAmount, o.fee) <= MarketOf(p, o.borrowed).totalBorrows)
  {
    RepayAddsUp(MarketOf(p, o.borrowed), now, user, o.repayAmount, o.fee);
  }

  /// Who is liquidated was open to it, and the orders went through; and nobody else is.
  lemma LiquidatedWasOpen(p: Pool, access: Access, now: nat, rates: map<MarketId, nat>, liquidator: Account, user: Account,
                          assets: seq<MarketId>, orders: seq<Order>)
    ensures LiquidateAccount(p, access, now, rates, liquidator, user, assets, orders).Done? <==>
      (MayLiquidate(p, user, assets) && ExecuteAll(p, access, now, rates, liquidator, user, orders).Done?
       && forall i :: 0 <= i < |assets| ==>
            Debt(ExecuteAll(p, access, now, rates, liquidator, user, orders).value, assets[i], user) == 0)
  {
    HealOrLiquidate(p, user, assets);
  }

  /// A forced liquidation of an account, whatever the orders. In every market the collateral goes from the account
  /// to the liquidator and the protocol, no one else's tokens or recorded borrows change, and nothing is written
  /// off; all collateral together, each order's at its own rate, is worth at most what arrived with the incentive;
  /// every market keeps its own invariant; and nothing is owed afterwards in the account's markets.
  lemma LiquidationClears(p: Pool, access: Access, now: nat, rates: map<MarketId, nat>, liquidator: Account,
                          user: Account, assets: seq<MarketId>, orders: seq<Order>)
    requires Sound(p)
    requires LiquidateAccount(p, access, now, rates, liquidator, user, assets, orders).Done?
    ensures var p' := LiquidateAccount(p, access, now, rates, liquidator, user, assets, orders).value;
      && Sound(p')
      && PoolMoved(p, p', user, liquidator, SeizedTokens(p, access, now, rates, liquidator, user, orders))
      && TotalCollateralValue(p, access, now, rates, liquidator, user, orders) <= TotalIncentivisedValue(p, orders)
      && forall mk | mk in assets :: Debt(p', mk, user) == 0
  {
    OrdersMove(p, access, now, rates, liquidator, user, orders);
    OrdersWithinIncentive(p, access, now, rates, liquidator, user, orders);
    var p' := LiquidateAccount(p, access, now, rates, liquidator, user, assets, orders).value;
    forall mk | mk in assets
      ensures Debt(p', mk, user) == 0
    {
      var i :| 0 <= i < |assets| && assets[i] == mk;
    }
  }
}

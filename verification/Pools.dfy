/** A pool: its markets' ledgers with what governance and the oracle say of each, and an account's positions. */
module Pools {
  import opened FixedPoint
  import opened Totals
  import opened Outcomes
  import opened Ledger
  import opened ExchangeRate
  import opened Borrowers
  import opened Liquidity

  /// The markets of a pool with what governance and the oracle say about each.
  datatype Pool = Pool(
    markets: map<MarketId, Market>,
    settings: map<MarketId, AllowedSettings>,
    prices: map<MarketId, nat>,
    collateralFactors: map<MarketId, nat>,
    thresholds: map<MarketId, nat>,
    incentive: nat,
    minLiquidatableCollateral: nat)

  const DEFAULT: AllowedSettings := Settings(1, 0, 0, 0, 0, EXP_SCALE)

  function MarketOf(p: Pool, mk: MarketId): Market {
    if mk in p.markets then p.markets[mk] else NewMarket(0)
  }

  /// A market reads the liquidation incentive from its comptroller.
  function SettingsOf(p: Pool, mk: MarketId): AllowedSettings {
    (if mk in p.settings then p.settings[mk] else DEFAULT).(liquidationIncentive := p.incentive)
  }

  function RateOf(p: Pool, mk: MarketId): nat {
    match ExchangeRateStored(SettingsOf(p, mk), MarketOf(p, mk))
    case Done(rate) => rate
    case Revert(_) => 0
  }

  function Tokens(p: Pool, mk: MarketId, user: Account): nat {
    Get(MarketOf(p, mk).accountTokens, user)
  }

  function Debt(p: Pool, mk: MarketId, user: Account): nat {
    Balance(MarketOf(p, mk), user)
  }

  function PositionOf(p: Pool, mk: MarketId, user: Account): Position {
    Position(mk, Tokens(p, mk, user), Debt(p, mk, user), RateOf(p, mk), Get(p.prices, mk),
             Get(p.collateralFactors, mk), Get(p.thresholds, mk))
  }

  function Positions(p: Pool, user: Account, assets: seq<MarketId>): seq<Position> {
    seq(|assets|, i requires 0 <= i < |assets| => PositionOf(p, assets[i], user))
  }

  /// The account's standing against the liquidation thresholds.
  function Health(p: Pool, user: Account, assets: seq<MarketId>): Outcome<Snapshot> {
    if Priced(Positions(p, user, assets)) then
      Done(SnapshotOf(Positions(p, user, assets), LiquidationThreshold, NoEffect))
    else Revert(PriceError)
  }

  predicate DistinctAssets(assets: seq<MarketId>) {
    forall i, j :: 0 <= i < j < |assets| ==> assets[i] != assets[j]
  }

  function WithMarket(p: Pool, mk: MarketId, m: Market): Pool {
    p.(markets := p.markets[mk := m])
  }

  function Accrued(p: Pool, mk: MarketId, now: nat, rates: map<MarketId, nat>): Outcome<Pool> {
    match AccrueInterest(SettingsOf(p, mk), MarketOf(p, mk), now, Get(rates, mk))
    case Revert(e) => Revert(e)
    case Done(m) => Done(WithMarket(p, mk, m))
  }

  function AccrueAll(p: Pool, now: nat, rates: map<MarketId, nat>, assets: seq<MarketId>): Outcome<Pool>
    decreases |assets|
  {
    if |assets| == 0 then Done(p)
    else match Accrued(p, assets[0], now, rates)
      case Revert(e) => Revert(e)
      case Done(p') => AccrueAll(p', now, rates, assets[1..])
  }

  /// Every market is in a reachable state.
  ghost predicate Sound(p: Pool) {
    forall mk :: SoundAt(p, mk)
  }

  ghost predicate SoundAt(p: Pool, mk: MarketId) {
    Inv(MarketOf(p, mk))
  }

  /// Then every borrow can be read.
  ghost predicate Readable(p: Pool, user: Account) {
    forall mk :: BorrowBalanceStored(MarketOf(p, mk), user).Done?
  }

  lemma SoundIsReadable(p: Pool, user: Account)
    requires Sound(p)
    ensures Readable(p, user)
  {
    forall mk
      ensures BorrowBalanceStored(MarketOf(p, mk), user).Done?
    {
      assert SoundAt(p, mk);
      BalanceIsFloor(MarketOf(p, mk), user);
    }
  }

  lemma SameBorrowsSameBalances(m: Market, m': Market)
    requires m'.accountBorrows == m.accountBorrows && m'.borrowIndex == m.borrowIndex
    ensures forall a :: Balance(m', a) == Balance(m, a)
  {
  }

  lemma InvOf(m: Market, m': Market)
    requires Inv(m) && m == m'
    ensures Inv(m')
  {
  }

  /// A market the pool does not know yet is as new.
  lemma UnknownIsSound(p: Pool, mk: MarketId)
    requires mk !in p.markets
    ensures SoundAt(p, mk)
  {
    NewMarketInv(0);
    InvOf(NewMarket(0), MarketOf(p, mk));
  }

  /// A call of one market keeps the pool sound.
  lemma CallKeepsSound(p: Pool, mk: MarketId, step: Step, m: Market)
    requires Sound(p) && Apply(MarketOf(p, mk), step) == Done(m)
    ensures Sound(WithMarket(p, mk, m))
  {
    assert SoundAt(p, mk);
    StepKeeps(MarketOf(p, mk), step);
    OneMarketSound(p, mk, m);
  }

  lemma MarketOfWith(p: Pool, mk: MarketId, m: Market, other: MarketId)
    ensures MarketOf(WithMarket(p, mk, m), other) == if other == mk then m else MarketOf(p, other)
  {
  }

  lemma InvOfWith(p: Pool, mk: MarketId, m: Market, other: MarketId)
    requires Inv(m) && SoundAt(p, other)
    ensures SoundAt(WithMarket(p, mk, m), other)
  {
    MarketOfWith(p, mk, m, other);
  }

  lemma OneMarketSound(p: Pool, mk: MarketId, m: Market)
    requires Sound(p) && Inv(m)
    ensures Sound(WithMarket(p, mk, m))
  {
    forall other
      ensures SoundAt(WithMarket(p, mk, m), other)
    {
      assert SoundAt(p, other);
      InvOfWith(p, mk, m, other);
    }
  }

  /// What accruing leaves alone: everything of the pool but its markets, and each market's tokens, bad debt
  /// and recorded borrows.
  ghost predicate OnlyInterest(p: Pool, p': Pool) {
    && p' == p.(markets := p'.markets)
    && forall mk ::
         && MarketOf(p', mk).accountTokens == MarketOf(p, mk).accountTokens
         && MarketOf(p', mk).accountBorrows == MarketOf(p, mk).accountBorrows
         && MarketOf(p', mk).totalSupply == MarketOf(p, mk).totalSupply
         && MarketOf(p', mk).badDebt == MarketOf(p, mk).badDebt
  }

  lemma AccrualOfOne(s: Settings, m: Market, now: nat, rate: nat)
    ensures AccrueInterest(s, m, now, rate).Done? ==>
      var m' := AccrueInterest(s, m, now, rate).value;
      && m'.accountTokens == m.accountTokens && m'.accountBorrows == m.accountBorrows
      && m'.totalSupply == m.totalSupply && m'.badDebt == m.badDebt
  {
  }

  lemma AccrualKeeps(p: Pool, mk: MarketId, now: nat, rates: map<MarketId, nat>)
    requires Sound(p) && Accrued(p, mk, now, rates).Done?
    ensures Sound(Accrued(p, mk, now, rates).value) && OnlyInterest(p, Accrued(p, mk, now, rates).value)
  {
    var m := AccrueInterest(SettingsOf(p, mk), MarketOf(p, mk), now, Get(rates, mk)).value;
    CallKeepsSound(p, mk, Step(SettingsOf(p, mk), now, Accrue(Get(rates, mk))), m);
    AccrualOfOne(SettingsOf(p, mk), MarketOf(p, mk), now, Get(rates, mk));
  }

  lemma {:induction false} AccrueAllKeeps(p: Pool, now: nat, rates: map<MarketId, nat>, assets: seq<MarketId>)
    requires Sound(p) && AccrueAll(p, now, rates, assets).Done?
    ensures Sound(AccrueAll(p, now, rates, assets).value) && OnlyInterest(p, AccrueAll(p, now, rates, assets).value)
    decreases |assets|
  {
    if |assets| > 0 {
      AccrualKeeps(p, assets[0], now, rates);
      AccrueAllKeeps(Accrued(p, assets[0], now, rates).value, now, rates, assets[1..]);
    }
  }
}

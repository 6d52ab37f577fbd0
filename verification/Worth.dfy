/** What an account is worth, exactly, from its pool's ledgers, prices and factors: sums of tokens times exchange rate
    times price, times the factor, and of borrows times price. A snapshot is within stated bounds of them. */
module Worth {
  import opened FixedPoint
  import opened Outcomes
  import opened Ledger
  import opened Liquidity
  import opened Pools
  import opened Totals
  import opened Borrowers

  // ---------- of an account in a pool ----------

  function LastOf(assets: seq<MarketId>): MarketId
    requires |assets| > 0
  {
    assets[|assets| - 1]
  }

  function Before(assets: seq<MarketId>): seq<MarketId>
    requires |assets| > 0
  {
    assets[..|assets| - 1]
  }

  function WorthOf(p: Pool, a: Account, mk: MarketId): nat {
    Get(MarketOf(p, mk).accountTokens, a) * RateOf(p, mk) * Get(p.prices, mk)
  }

  function AccountWorth(p: Pool, a: Account, assets: seq<MarketId>): nat {
    if |assets| == 0 then 0 else AccountWorth(p, a, Before(assets)) + WorthOf(p, a, LastOf(assets))
  }

  function FactorOf(p: Pool, mk: MarketId, w: Weight): nat {
    if w == CollateralFactor then Get(p.collateralFactors, mk) else Get(p.thresholds, mk)
  }

  function WeightedWorth(p: Pool, a: Account, assets: seq<MarketId>, w: Weight): nat {
    if |assets| == 0 then 0
    else WeightedWorth(p, a, Before(assets), w) + FactorOf(p, LastOf(assets), w) * WorthOf(p, a, LastOf(assets))
  }

  function OwedWorth(p: Pool, a: Account, assets: seq<MarketId>): nat {
    if |assets| == 0 then 0
    else OwedWorth(p, a, Before(assets)) + Balance(MarketOf(p, LastOf(assets)), a) * Get(p.prices, LastOf(assets))
  }

  function TokensOf(p: Pool, a: Account, assets: seq<MarketId>): nat {
    if |assets| == 0 then 0 else TokensOf(p, a, Before(assets)) + Get(MarketOf(p, LastOf(assets)).accountTokens, a)
  }

  function FactoredTokens(p: Pool, a: Account, assets: seq<MarketId>, w: Weight): nat {
    if |assets| == 0 then 0
    else FactoredTokens(p, a, Before(assets), w)
         + FactorOf(p, LastOf(assets), w) * Get(MarketOf(p, LastOf(assets)).accountTokens, a)
  }

  /// A snapshot says what the account's positions are worth: all collateral, the weighted collateral, the borrows; and
  /// liquidity or shortfall is the difference of the last two.
  ghost predicate TellsWorth(s: Snapshot, p: Pool, a: Account, assets: seq<MarketId>, w: Weight) {
    && CollateralWithin(s.totalCollateral, AccountWorth(p, a, assets), TokensOf(p, a, assets), |assets|)
    && WeightedWithin(s.weightedCollateral, WeightedWorth(p, a, assets, w), TokensOf(p, a, assets),
                      FactoredTokens(p, a, assets, w), |assets|)
    && BorrowsWithin(s.borrows, OwedWorth(p, a, assets), |assets|)
    && s.effects == 0 && s.liquidity - s.shortfall == s.weightedCollateral - s.borrows && (s.liquidity == 0 || s.shortfall == 0)
  }

  lemma {:induction false} SameWorth(p: Pool, a: Account, assets: seq<MarketId>, w: Weight)
    ensures var ps := Positions(p, a, assets);
      && ExactCollateral(ps) == AccountWorth(p, a, assets) && ExactWeighted(ps, w) == WeightedWorth(p, a, assets, w)
      && ExactBorrows(ps) == OwedWorth(p, a, assets) && AllTokens(ps) == TokensOf(p, a, assets)
      && WeightedTokens(ps, w) == FactoredTokens(p, a, assets, w)
    decreases |assets|
  {
    var ps := Positions(p, a, assets);
    if |assets| > 0 {
      assert Front(ps) == Positions(p, a, Before(assets)) && Last(ps) == PositionOf(p, LastOf(assets), a);
      SameWorth(p, a, Before(assets), w);
    }
  }

  /// Of every account over any list of markets, under either weight.
  lemma SnapshotTellsWorth(p: Pool, a: Account, assets: seq<MarketId>, w: Weight)
    ensures TellsWorth(SnapshotOf(Positions(p, a, assets), w, NoEffect), p, a, assets, w)
  {
    var ps := Positions(p, a, assets);
    SameWorth(p, a, assets, w);
    CollateralIsWorth(ps);
    WeightedIsWorth(ps, w);
    BorrowsAreWorth(ps);
    NoEffects(ps, w);
  }
}

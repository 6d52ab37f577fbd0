/** Account liquidity as the Comptroller computes it: sums over the markets an account is in, each term
    truncated on its own, and what these sums promise in spite of that. */
module Liquidity {
  import opened FixedPoint
  import opened Outcomes

  type MarketId = nat

  /// What one market contributes: the account's balances there, the exchange rate, the oracle's price and
  /// the market's two weights.
  datatype Position = Position(
    market: MarketId,
    tokens: nat,
    borrows: nat,
    rate: nat,
    price: nat,
    collateralFactor: nat,
    liquidationThreshold: nat)

  datatype Weight = CollateralFactor | LiquidationThreshold

  datatype Effect = NoEffect | InMarket(market: MarketId, redeemTokens: nat, borrowAmount: nat)

  datatype Snapshot = Snapshot(
    totalCollateral: nat,
    weightedCollateral: nat,
    borrows: nat,
    effects: nat,
    liquidity: nat,
    shortfall: nat)

  function WeightOf(p: Position, w: Weight): nat {
    match w
    case CollateralFactor => p.collateralFactor
    case LiquidationThreshold => p.liquidationThreshold
  }

  function VTokenPrice(p: Position): nat {
    MulTruncate(p.rate, p.price)
  }

  function WeightedVTokenPrice(p: Position, w: Weight): nat {
    MulTruncate(WeightOf(p, w), VTokenPrice(p))
  }

  function Last(ps: seq<Position>): Position
    requires |ps| > 0
  {
    ps[|ps| - 1]
  }

  function Front(ps: seq<Position>): seq<Position>
    requires |ps| > 0
  {
    ps[..|ps| - 1]
  }

  function TotalCollateral(ps: seq<Position>): nat {
    if |ps| == 0 then 0 else TotalCollateral(Front(ps)) + MulTruncate(VTokenPrice(Last(ps)), Last(ps).tokens)
  }

  function WeightedCollateral(ps: seq<Position>, w: Weight): nat {
    if |ps| == 0 then 0
    else WeightedCollateral(Front(ps), w) + MulTruncate(WeightedVTokenPrice(Last(ps), w), Last(ps).tokens)
  }

  function Borrows(ps: seq<Position>): nat {
    if |ps| == 0 then 0 else Borrows(Front(ps)) + MulTruncate(Last(ps).price, Last(ps).borrows)
  }

  function EffectOf(p: Position, w: Weight, e: Effect): nat {
    if e.InMarket? && p.market == e.market then
      MulTruncate(WeightedVTokenPrice(p, w), e.redeemTokens) + MulTruncate(p.price, e.borrowAmount)
    else 0
  }

  function Effects(ps: seq<Position>, w: Weight, e: Effect): nat {
    if |ps| == 0 then 0 else Effects(Front(ps), w, e) + EffectOf(Last(ps), w, e)
  }

  predicate Priced(ps: seq<Position>) {
    forall i :: 0 <= i < |ps| ==> ps[i].price != 0
  }

  /// What is left of the weighted collateral; negative is a shortfall.
  function Surplus(ps: seq<Position>, w: Weight, e: Effect): int {
    WeightedCollateral(ps, w) - Borrows(ps) - Effects(ps, w, e)
  }

  function SnapshotOf(ps: seq<Position>, w: Weight, e: Effect): Snapshot {
    var surplus := Surplus(ps, w, e);
    Snapshot(TotalCollateral(ps), WeightedCollateral(ps, w), Borrows(ps), Effects(ps, w, e),
             if surplus > 0 then surplus else 0, if surplus > 0 then 0 else -surplus)
  }

  /// The comptroller's loop over the account's markets.
  method GetHypotheticalLiquiditySnapshot(ps: seq<Position>, w: Weight, e: Effect) returns (r: Outcome<Snapshot>)
    ensures r == if Priced(ps) then Done(SnapshotOf(ps, w, e)) else Revert(PriceError)
    ensures r.Done? <==> forall i :: 0 <= i < |ps| ==> ps[i].price != 0
    ensures r.Done? ==>
      && CollateralWithin(r.value.totalCollateral, ExactCollateral(ps), AllTokens(ps), |ps|)
      && WeightedWithin(r.value.weightedCollateral, ExactWeighted(ps, w), AllTokens(ps), WeightedTokens(ps, w), |ps|)
      && BorrowsWithin(r.value.borrows, ExactBorrows(ps), |ps|)
      && r.value.liquidity - r.value.shortfall == r.value.weightedCollateral - r.value.borrows - r.value.effects
      && (r.value.liquidity == 0 || r.value.shortfall == 0)
  {
    CollateralIsWorth(ps);
    WeightedIsWorth(ps, w);
    BorrowsAreWorth(ps);
    var totalCollateral, weightedCollateral, borrows, effects := 0, 0, 0, 0;
    for i := 0 to |ps|
      invariant totalCollateral == TotalCollateral(ps[..i])
      invariant weightedCollateral == WeightedCollateral(ps[..i], w)
      invariant borrows == Borrows(ps[..i])
      invariant effects == Effects(ps[..i], w, e)
      invariant Priced(ps[..i])
    {
      var asset := ps[i];
      assert Front(ps[..i + 1]) == ps[..i] && Last(ps[..i + 1]) == asset;
      if asset.price == 0 {
        return Revert(PriceError);
      }
      var vTokenPrice := MulTruncate(asset.rate, asset.price);
      var weightedVTokenPrice := MulTruncate(WeightOf(asset, w), vTokenPrice);
      weightedCollateral := MulTruncate(weightedVTokenPrice, asset.tokens) + weightedCollateral;
      totalCollateral := MulTruncate(vTokenPrice, asset.tokens) + totalCollateral;
      borrows := MulTruncate(asset.price, asset.borrows) + borrows;
      if e.InMarket? && asset.market == e.market {
        effects := MulTruncate(weightedVTokenPrice, e.redeemTokens) + effects;
        effects := MulTruncate(asset.price, e.borrowAmount) + effects;
      }
    }
    assert ps[..|ps|] == ps;
    var borrowPlusEffects := borrows + effects;
    if weightedCollateral > borrowPlusEffects {
      return Done(Snapshot(totalCollateral, weightedCollateral, borrows, effects,
                           weightedCollateral - borrowPlusEffects, 0));
    } else {
      return Done(Snapshot(totalCollateral, weightedCollateral, borrows, effects,
                           0, borrowPlusEffects - weightedCollateral));
    }
  }

  // ---------- what the sums are worth ----------

  const SQUARE: nat := EXP_SCALE * EXP_SCALE
  const CUBE: nat := EXP_SCALE * EXP_SCALE * EXP_SCALE

  /// Times 1e36, 1e54 and 1e18.
  function ExactCollateral(ps: seq<Position>): nat {
    if |ps| == 0 then 0 else ExactCollateral(Front(ps)) + Last(ps).tokens * Last(ps).rate * Last(ps).price
  }

  function ExactWeighted(ps: seq<Position>, w: Weight): nat {
    if |ps| == 0 then 0
    else ExactWeighted(Front(ps), w)
         + (if w == CollateralFactor then Last(ps).collateralFactor else Last(ps).liquidationThreshold)
           * (Last(ps).tokens * Last(ps).rate * Last(ps).price)
  }

  function ExactBorrows(ps: seq<Position>): nat {
    if |ps| == 0 then 0 else ExactBorrows(Front(ps)) + Last(ps).borrows * Last(ps).price
  }

  function AllTokens(ps: seq<Position>): nat {
    if |ps| == 0 then 0 else AllTokens(Front(ps)) + Last(ps).tokens
  }

  function WeightedTokens(ps: seq<Position>, w: Weight): nat {
    if |ps| == 0 then 0
    else WeightedTokens(Front(ps), w)
         + (if w == CollateralFactor then Last(ps).collateralFactor else Last(ps).liquidationThreshold) * Last(ps).tokens
  }

  /// Truncated sums against the exact ones: never more, and less by at most one unit and one for each vToken's price
  /// and, with a weight, one more for each vToken.
  ghost predicate CollateralWithin(sum: nat, exact: nat, tokens: nat, n: nat) {
    sum * SQUARE <= exact <= (sum + n) * SQUARE + tokens * EXP_SCALE
  }

  ghost predicate WeightedWithin(sum: nat, exact: nat, tokens: nat, weighted: nat, n: nat) {
    sum * CUBE <= exact <= (sum + n) * CUBE + tokens * SQUARE + weighted * EXP_SCALE
  }

  ghost predicate BorrowsWithin(sum: nat, exact: nat, n: nat) {
    sum * EXP_SCALE <= exact <= (sum + n) * EXP_SCALE
  }

  lemma Truncated(a: nat, b: nat)
    ensures MulTruncate(a, b) * EXP_SCALE <= a * b < (MulTruncate(a, b) + 1) * EXP_SCALE
  {
    DivBounds(a * b, EXP_SCALE, MulTruncate(a, b));
    DivBounds(a * b, EXP_SCALE, MulTruncate(a, b) + 1);
  }

  lemma TwoTruncations(x: nat, v: nat, tokens: nat, term: nat)
    requires v * EXP_SCALE <= x < (v + 1) * EXP_SCALE && term * EXP_SCALE <= v * tokens < (term + 1) * EXP_SCALE
    ensures CollateralWithin(term, tokens * x, tokens, 1)
  {
    MulLe(v * EXP_SCALE, x, tokens);
    MulLe(x, (v + 1) * EXP_SCALE, tokens);
    MulLe(term * EXP_SCALE, v * tokens, EXP_SCALE);
    MulLe(v * tokens, (term + 1) * EXP_SCALE, EXP_SCALE);
    assert v * EXP_SCALE * tokens == v * tokens * EXP_SCALE;
    assert (v + 1) * EXP_SCALE * tokens == v * tokens * EXP_SCALE + tokens * EXP_SCALE;
    assert x * tokens == tokens * x;
  }

  lemma ThreeTruncations(x: nat, v: nat, weight: nat, y: nat, tokens: nat, term: nat)
    requires v * EXP_SCALE <= x < (v + 1) * EXP_SCALE
    requires y * EXP_SCALE <= weight * v < (y + 1) * EXP_SCALE
    requires term * EXP_SCALE <= y * tokens < (term + 1) * EXP_SCALE
    ensures WeightedWithin(term, weight * (tokens * x), tokens, weight * tokens, 1)
  {
    WeightBounds(x, v, weight, y);
    WeightedTokensBound(weight * x, y, weight, tokens, term);
    assert weight * (tokens * x) == weight * x * tokens;
  }

  lemma WeightBounds(x: nat, v: nat, weight: nat, y: nat)
    requires v * EXP_SCALE <= x < (v + 1) * EXP_SCALE && y * EXP_SCALE <= weight * v < (y + 1) * EXP_SCALE
    ensures y * SQUARE <= weight * x <= (y + 1) * SQUARE + weight * EXP_SCALE
  {
    MulLe(v * EXP_SCALE, x, weight);
    MulLe(x, (v + 1) * EXP_SCALE, weight);
    MulLe(y * EXP_SCALE, weight * v, EXP_SCALE);
    MulLe(weight * v, (y + 1) * EXP_SCALE, EXP_SCALE);
    assert v * EXP_SCALE * weight == weight * v * EXP_SCALE;
    assert (v + 1) * EXP_SCALE * weight == weight * v * EXP_SCALE + weight * EXP_SCALE;
    assert x * weight == weight * x;
  }

  lemma WeightedTokensBound(z: nat, y: nat, weight: nat, tokens: nat, term: nat)
    requires y * SQUARE <= z <= (y + 1) * SQUARE + weight * EXP_SCALE
    requires term * EXP_SCALE <= y * tokens < (term + 1) * EXP_SCALE
    ensures term * CUBE <= z * tokens <= (term + 1) * CUBE + tokens * SQUARE + weight * tokens * EXP_SCALE
  {
    MulLe(y * SQUARE, z, tokens);
    MulLe(z, (y + 1) * SQUARE + weight * EXP_SCALE, tokens);
    MulLe(term * EXP_SCALE, y * tokens, SQUARE);
    MulLe(y * tokens, (term + 1) * EXP_SCALE, SQUARE);
    assert y * SQUARE * tokens == y * tokens * SQUARE;
    assert ((y + 1) * SQUARE + weight * EXP_SCALE) * tokens == y * tokens * SQUARE + tokens * SQUARE + weight * tokens * EXP_SCALE;
  }

  lemma CollateralTerm(p: Position)
    ensures CollateralWithin(MulTruncate(VTokenPrice(p), p.tokens), p.tokens * p.rate * p.price, p.tokens, 1)
  {
    Truncated(p.rate, p.price);
    Truncated(VTokenPrice(p), p.tokens);
    TwoTruncations(p.rate * p.price, VTokenPrice(p), p.tokens, MulTruncate(VTokenPrice(p), p.tokens));
    assert p.tokens * (p.rate * p.price) == p.tokens * p.rate * p.price;
  }

  lemma WeightedTerm(p: Position, w: Weight)
    ensures var weight := if w == CollateralFactor then p.collateralFactor else p.liquidationThreshold;
      WeightedWithin(MulTruncate(WeightedVTokenPrice(p, w), p.tokens), weight * (p.tokens * p.rate * p.price), p.tokens,
                     weight * p.tokens, 1)
  {
    var weight := if w == CollateralFactor then p.collateralFactor else p.liquidationThreshold;
    Truncated(p.rate, p.price);
    Truncated(weight, VTokenPrice(p));
    Truncated(WeightedVTokenPrice(p, w), p.tokens);
    ThreeTruncations(p.rate * p.price, VTokenPrice(p), weight, WeightedVTokenPrice(p, w), p.tokens,
                     MulTruncate(WeightedVTokenPrice(p, w), p.tokens));
    assert p.tokens * (p.rate * p.price) == p.tokens * p.rate * p.price;
  }

  /// Over any list of positions the comptroller's collateral is the exact sum of tokens, rate and price, but for the
  /// truncations.
  lemma {:induction false} CollateralIsWorth(ps: seq<Position>)
    ensures CollateralWithin(TotalCollateral(ps), ExactCollateral(ps), AllTokens(ps), |ps|)
    decreases |ps|
  {
    if |ps| > 0 {
      CollateralIsWorth(Front(ps));
      CollateralTerm(Last(ps));
    }
  }

  /// And with either weight.
  lemma {:induction false} WeightedIsWorth(ps: seq<Position>, w: Weight)
    ensures WeightedWithin(WeightedCollateral(ps, w), ExactWeighted(ps, w), AllTokens(ps), WeightedTokens(ps, w), |ps|)
    decreases |ps|
  {
    if |ps| > 0 {
      WeightedIsWorth(Front(ps), w);
      WeightedTerm(Last(ps), w);
    }
  }

  /// And borrows are the exact sum of borrows and price.
  lemma {:induction false} BorrowsAreWorth(ps: seq<Position>)
    ensures BorrowsWithin(Borrows(ps), ExactBorrows(ps), |ps|)
    decreases |ps|
  {
    if |ps| > 0 {
      BorrowsAreWorth(Front(ps));
      Truncated(Last(ps).price, Last(ps).borrows);
      assert Last(ps).borrows * Last(ps).price == Last(ps).price * Last(ps).borrows;
    }
  }

  // ---------- the two weights ----------

  /// What setCollateralFactor accepts.
  predicate FactorsInOrder(p: Position) {
    p.collateralFactor <= p.liquidationThreshold <= EXP_SCALE
  }

  lemma MulTruncateMonotone(a: nat, a': nat, b: nat)
    requires a <= a'
    ensures MulTruncate(a, b) <= MulTruncate(a', b)
  {
    MulLe(a, a', b);
    DivMono(a * b, a' * b, EXP_SCALE);
  }

  lemma TermsInOrder(p: Position)
    requires FactorsInOrder(p)
    ensures MulTruncate(WeightedVTokenPrice(p, CollateralFactor), p.tokens)
         <= MulTruncate(WeightedVTokenPrice(p, LiquidationThreshold), p.tokens)
         <= MulTruncate(VTokenPrice(p), p.tokens)
  {
    var cf, lt := WeightedVTokenPrice(p, CollateralFactor), WeightedVTokenPrice(p, LiquidationThreshold);
    MulTruncateMonotone(p.collateralFactor, p.liquidationThreshold, VTokenPrice(p));
    FractionLe(p.liquidationThreshold, EXP_SCALE, VTokenPrice(p));
    MulTruncateMonotone(cf, lt, p.tokens);
    MulTruncateMonotone(lt, VTokenPrice(p), p.tokens);
  }

  lemma {:induction false} CollateralInOrder(ps: seq<Position>)
    requires forall i :: 0 <= i < |ps| ==> FactorsInOrder(ps[i])
    ensures WeightedCollateral(ps, CollateralFactor) <= WeightedCollateral(ps, LiquidationThreshold) <= TotalCollateral(ps)
    decreases |ps|
  {
    if |ps| > 0 {
      TermsInOrder(Last(ps));
      CollateralInOrder(Front(ps));
    }
  }

  /// Over any list of markets, and in spite of the truncation of each term, an account without a
  /// shortfall of borrowing power cannot be liquidated, and a liquidation shortfall is never larger.
  lemma BorrowingPowerProtects(ps: seq<Position>)
    requires forall i :: 0 <= i < |ps| ==> FactorsInOrder(ps[i])
    ensures var power, health := SnapshotOf(ps, CollateralFactor, NoEffect), SnapshotOf(ps, LiquidationThreshold, NoEffect);
      && health.shortfall <= power.shortfall
      && power.liquidity <= health.liquidity
      && (power.shortfall == 0 || power.liquidity == 0) && (health.shortfall == 0 || health.liquidity == 0)
      && (0 < health.shortfall ==> health.weightedCollateral < health.borrows)
  {
    CollateralInOrder(ps);
    NoEffects(ps, CollateralFactor);
    NoEffects(ps, LiquidationThreshold);
  }

  lemma {:induction false} NoEffects(ps: seq<Position>, w: Weight)
    ensures Effects(ps, w, NoEffect) == 0
    decreases |ps|
  {
    if |ps| > 0 {
      NoEffects(Front(ps), w);
    }
  }

  // ---------- the hypothetical check ----------

  predicate Concerns(p: Position, e: Effect) {
    e.InMarket? && p.market == e.market && e.redeemTokens <= p.tokens
  }

  /// The position after a redeem or borrow, by when the market's exchange rate is `rate`.
  function Applied(p: Position, e: Effect, rate: nat): Position {
    if Concerns(p, e) then
      p.(tokens := p.tokens - e.redeemTokens, borrows := p.borrows + e.borrowAmount, rate := rate)
    else p
  }

  predicate Redeemable(ps: seq<Position>, e: Effect) {
    forall i :: 0 <= i < |ps| && e.InMarket? && ps[i].market == e.market ==> e.redeemTokens <= ps[i].tokens
  }

  function AppliedAll(ps: seq<Position>, e: Effect, rate: nat): seq<Position> {
    seq(|ps|, i requires 0 <= i < |ps| => Applied(ps[i], e, rate))
  }

  /// The unit that two truncated products lack of the truncated product of the sum, if there is one.
  function Carry(a: nat, x: nat, y: nat): nat {
    if (a * x) % EXP_SCALE + (a * y) % EXP_SCALE >= EXP_SCALE then 1 else 0
  }

  lemma SplitWithCarry(a: nat, x: nat, y: nat)
    ensures MulTruncate(a, x + y) == MulTruncate(a, x) + MulTruncate(a, y) + Carry(a, x, y)
  {
    var p, q := a * x, a * y;
    assert a * (x + y) == p + q;
    var carry := Carry(a, x, y);
    DivBounds(p + q, EXP_SCALE, p / EXP_SCALE + q / EXP_SCALE + carry);
    DivBounds(p + q, EXP_SCALE, p / EXP_SCALE + q / EXP_SCALE + carry + 1);
  }

  /// The units that the check does not see in a position: one for a redeem and one for a borrow at most.
  function Carries(p: Position, w: Weight, e: Effect): (carries: nat)
    ensures carries <= 2
  {
    if Concerns(p, e) then
      Carry(WeightedVTokenPrice(p, w), p.tokens - e.redeemTokens, e.redeemTokens) + Carry(p.price, p.borrows, e.borrowAmount)
    else 0
  }

  function TotalCarries(ps: seq<Position>, w: Weight, e: Effect): nat {
    if |ps| == 0 then 0 else TotalCarries(Front(ps), w, e) + Carries(Last(ps), w, e)
  }

  /// What the tokens that are left weigh more at the new rate than at the one in the check.
  function Gain(p: Position, w: Weight, e: Effect, rate: nat): int {
    if Concerns(p, e) then
      MulTruncate(WeightedVTokenPrice(p.(rate := rate), w), p.tokens - e.redeemTokens)
        - MulTruncate(WeightedVTokenPrice(p, w), p.tokens - e.redeemTokens)
    else 0
  }

  function TotalGain(ps: seq<Position>, w: Weight, e: Effect, rate: nat): int {
    if |ps| == 0 then 0 else TotalGain(Front(ps), w, e, rate) + Gain(Last(ps), w, e, rate)
  }

  /// The exchange rate does not fall, unless no tokens are left whose worth it would be.
  predicate RateHolds(ps: seq<Position>, e: Effect, rate: nat) {
    forall i :: 0 <= i < |ps| && Concerns(ps[i], e) ==> ps[i].rate <= rate || ps[i].tokens == e.redeemTokens
  }

  lemma GainOfOne(p: Position, w: Weight, e: Effect, rate: nat)
    requires Concerns(p, e) ==> p.rate <= rate || p.tokens == e.redeemTokens
    ensures 0 <= Gain(p, w, e, rate)
  {
    if Concerns(p, e) {
      if p.tokens == e.redeemTokens {
        assert WeightedVTokenPrice(p, w) * 0 == 0 == WeightedVTokenPrice(p.(rate := rate), w) * 0;
      } else {
        MulTruncateMonotone(p.rate, rate, p.price);
        CommutedMonotone(WeightOf(p, w), VTokenPrice(p), VTokenPrice(p.(rate := rate)));
        MulTruncateMonotone(WeightedVTokenPrice(p, w), WeightedVTokenPrice(p.(rate := rate), w), p.tokens - e.redeemTokens);
      }
    }
  }

  lemma CommutedMonotone(a: nat, b: nat, b': nat)
    requires b <= b'
    ensures MulTruncate(a, b) <= MulTruncate(a, b')
  {
    MulTruncateMonotone(b, b', a);
    assert b * a == a * b && b' * a == a * b';
  }

  lemma {:induction false} GainNotNegative(ps: seq<Position>, w: Weight, e: Effect, rate: nat)
    requires RateHolds(ps, e, rate)
    ensures 0 <= TotalGain(ps, w, e, rate)
    decreases |ps|
  {
    if |ps| > 0 {
      GainOfOne(Last(ps), w, e, rate);
      GainNotNegative(Front(ps), w, e, rate);
    }
  }

  function Contribution(p: Position, w: Weight): int {
    MulTruncate(WeightedVTokenPrice(p, w), p.tokens) - MulTruncate(p.price, p.borrows)
  }

  lemma ContributionAfter(p: Position, w: Weight, e: Effect, rate: nat)
    requires e.InMarket? && p.market == e.market ==> e.redeemTokens <= p.tokens
    ensures Contribution(Applied(p, e, rate), w)
         == Contribution(p, w) - EffectOf(p, w, e) - Carries(p, w, e) + Gain(p, w, e, rate)
  {
    if Concerns(p, e) {
      SplitWithCarry(WeightedVTokenPrice(p, w), p.tokens - e.redeemTokens, e.redeemTokens);
      SplitWithCarry(p.price, p.borrows, e.borrowAmount);
      SameWeightedPrice(p, w, e, rate);
    }
  }

  lemma SameWeightedPrice(p: Position, w: Weight, e: Effect, rate: nat)
    requires Concerns(p, e)
    ensures WeightedVTokenPrice(Applied(p, e, rate), w) == WeightedVTokenPrice(p.(rate := rate), w)
  {
  }

  /// The check foresees the account's surplus after the redeem or borrow exactly, but for the carries and for
  /// what a new exchange rate adds.
  lemma {:induction false} CheckForesees(ps: seq<Position>, w: Weight, e: Effect, rate: nat)
    requires Redeemable(ps, e)
    ensures Surplus(AppliedAll(ps, e, rate), w, NoEffect)
         == Surplus(ps, w, e) - TotalCarries(ps, w, e) + TotalGain(ps, w, e, rate)
    decreases |ps|
  {
    if |ps| > 0 {
      var p, rest, after := Last(ps), Front(ps), AppliedAll(ps, e, rate);
      assert Front(after) == AppliedAll(rest, e, rate) && Last(after) == Applied(p, e, rate);
      ContributionAfter(p, w, e, rate);
      CheckForesees(rest, w, e, rate);
    }
  }

  /// An account's list holds each market once.
  predicate NoDuplicates(ps: seq<Position>) {
    forall i, j :: 0 <= i < j < |ps| ==> ps[i].market != ps[j].market
  }

  predicate Elsewhere(ps: seq<Position>, e: Effect) {
    forall i :: 0 <= i < |ps| ==> !(e.InMarket? && ps[i].market == e.market)
  }

  lemma {:induction false} NoCarriesElsewhere(ps: seq<Position>, w: Weight, e: Effect)
    requires Elsewhere(ps, e)
    ensures TotalCarries(ps, w, e) == 0
    decreases |ps|
  {
    if |ps| > 0 {
      NoCarriesElsewhere(Front(ps), w, e);
    }
  }

  lemma CarriesOfOne(p: Position, w: Weight, e: Effect)
    ensures e.InMarket? && (e.redeemTokens == 0 || e.borrowAmount == 0) ==> Carries(p, w, e) <= 1
  {
    if e.InMarket? && (e.redeemTokens == 0 || e.borrowAmount == 0) {
      NoCarry(WeightedVTokenPrice(p, w), p.tokens);
      NoCarry(p.price, p.borrows);
    }
  }

  lemma NoCarry(a: nat, x: nat)
    ensures Carry(a, x, 0) == 0
  {
    assert a * 0 == 0;
  }

  /// In an account's list at most one market is touched, so at most two units are not seen, and for a redeem or a
  /// borrow alone at most one.
  lemma {:induction false} FewCarries(ps: seq<Position>, w: Weight, e: Effect)
    requires NoDuplicates(ps)
    ensures TotalCarries(ps, w, e) <= 2
    ensures e.InMarket? && (e.redeemTokens == 0 || e.borrowAmount == 0) ==> TotalCarries(ps, w, e) <= 1
    decreases |ps|
  {
    if |ps| > 0 {
      CarriesOfOne(Last(ps), w, e);
      if e.InMarket? && Last(ps).market == e.market {
        NoCarriesElsewhere(Front(ps), w, e);
      } else {
        FewCarries(Front(ps), w, e);
      }
    }
  }

  /// After a redeem or borrow the account is without a shortfall, under either weight, if and only if the
  /// surplus in the check, with what the new rate adds, covers the carries.
  lemma SafeAfterwards(ps: seq<Position>, w: Weight, e: Effect, rate: nat)
    requires Redeemable(ps, e)
    ensures var after := SnapshotOf(AppliedAll(ps, e, rate), w, NoEffect);
      && (after.shortfall == 0 <==> TotalCarries(ps, w, e) <= Surplus(ps, w, e) + TotalGain(ps, w, e, rate))
      && (RateHolds(ps, e, rate) && SnapshotOf(ps, w, e).shortfall == 0 ==> after.shortfall <= TotalCarries(ps, w, e))
  {
    CheckForesees(ps, w, e, rate);
    if RateHolds(ps, e, rate) {
      GainNotNegative(ps, w, e, rate);
    }
  }

  /// So an account that passes the check is short of the thresholds right afterwards if and only if its surplus
  /// under them, with what the new rate adds, does not cover the carries; and then by at most two units, or one
  /// for a redeem or a borrow alone.
  lemma CheckedAccountIsSafe(ps: seq<Position>, e: Effect, rate: nat)
    requires Redeemable(ps, e) && NoDuplicates(ps) && RateHolds(ps, e, rate)
    requires forall i :: 0 <= i < |ps| ==> FactorsInOrder(ps[i])
    requires SnapshotOf(ps, CollateralFactor, e).shortfall == 0
    ensures var after := SnapshotOf(AppliedAll(ps, e, rate), LiquidationThreshold, NoEffect);
      && (after.shortfall == 0 <==> TotalCarries(ps, LiquidationThreshold, e)
                                      <= Surplus(ps, LiquidationThreshold, e) + TotalGain(ps, LiquidationThreshold, e, rate))
      && after.shortfall <= TotalCarries(ps, CollateralFactor, e) <= 2
      && (e.InMarket? && (e.redeemTokens == 0 || e.borrowAmount == 0) ==> after.shortfall <= 1)
  {
    SafeAfterwards(ps, LiquidationThreshold, e, rate);
    SafeAfterwards(ps, CollateralFactor, e, rate);
    FewCarries(ps, CollateralFactor, e);
    BorrowingPowerProtects(AppliedAll(ps, e, rate));
  }

  /// An account that owes 1 of a token at a price of 0.1, and borrows 9 more.
  const TENTH: nat := EXP_SCALE / 10
  const BEFORE: Position := Position(1, 0, 1, EXP_SCALE, TENTH, 0, 0)
  const AFTERWARDS: Position := Position(1, 0, 10, EXP_SCALE, TENTH, 0, 0)
  const BORROW_NINE: Effect := InMarket(1, 0, 9)

  lemma TenthsTruncate()
    ensures MulTruncate(TENTH, 1) == 0 && MulTruncate(TENTH, 9) == 0 && MulTruncate(TENTH, 10) == 1
    ensures VTokenPrice(BEFORE) == TENTH == VTokenPrice(AFTERWARDS)
    ensures MulTruncate(0, TENTH) == 0 && MulTruncate(0, 0) == 0
  {
  }

  /// One unit can indeed be missing: in the check both amounts truncate to nothing, together they do not.
  lemma CheckedAccountMayLackOneUnit()
    ensures SnapshotOf([BEFORE], CollateralFactor, BORROW_NINE).shortfall == 0
    ensures AppliedAll([BEFORE], BORROW_NINE, EXP_SCALE) == [AFTERWARDS]
    ensures SnapshotOf([AFTERWARDS], LiquidationThreshold, NoEffect).shortfall == 1
  {
    TenthsTruncate();
    OnePosition(BEFORE, CollateralFactor, BORROW_NINE);
    OnePosition(AFTERWARDS, LiquidationThreshold, NoEffect);
    assert Contribution(BEFORE, CollateralFactor) == 0 && EffectOf(BEFORE, CollateralFactor, BORROW_NINE) == 0;
    assert Contribution(AFTERWARDS, LiquidationThreshold) == -1;
  }

  lemma OnePosition(p: Position, w: Weight, e: Effect)
    ensures Surplus([p], w, e) == Contribution(p, w) - EffectOf(p, w, e)
  {
    assert Front([p]) == [] && Last([p]) == p;
    assert WeightedCollateral([], w) == 0 && Borrows([]) == 0 && Effects([], w, e) == 0;
    assert WeightedCollateral([p], w) == MulTruncate(WeightedVTokenPrice(p, w), p.tokens);
    assert Borrows([p]) == MulTruncate(p.price, p.borrows);
    assert Effects([p], w, e) == EffectOf(p, w, e);
  }
}

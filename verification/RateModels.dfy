/** The interest rate models: utilization, the jump rate, the two-kinks rate on signed parameters, and
    the supply rate, with Solidity's division, which truncates toward zero. */
module RateModels {
  import opened FixedPoint
  import opened Outcomes
  import opened Ledger

  /// Solidity's signed division.
  function TruncDiv(a: int, b: int): int
    requires 0 < b
  {
    if 0 <= a then a / b else -((-a) / b)
  }

  /// A signed slope times a utilization, scaled down and truncated toward zero.
  function Slope(util: int, slope: int): int {
    TruncDiv(util * slope, EXP_SCALE)
  }

  lemma SlopeIsMulTruncate(util: nat, slope: nat)
    ensures Slope(util, slope) == MulTruncate(util, slope)
  {
  }

  lemma SlopeMonotone(u: int, v: int, slope: int)
    requires 0 <= u <= v && 0 <= slope
    ensures 0 <= Slope(u, slope) <= Slope(v, slope)
  {
    MulLe(u, v, slope);
    DivMono(u * slope, v * slope, EXP_SCALE);
  }

  lemma SlopeSplit(u: nat, v: nat, slope: nat)
    ensures Slope(u, slope) + Slope(v, slope) <= Slope(u + v, slope) <= Slope(u, slope) + Slope(v, slope) + 1
  {
    assert (u + v) * slope == u * slope + v * slope;
    DivSplit(u * slope, v * slope, EXP_SCALE);
  }

  function Utilization(cash: nat, borrows: nat, reserves: nat, badDebt: nat): Outcome<nat> {
    if borrows + badDebt == 0 then Done(0)
    else if cash + borrows + badDebt <= reserves then Revert(Panic)
    else
      DivNonNegative((borrows + badDebt) * EXP_SCALE, cash + borrows + badDebt - reserves);
      var rate := (borrows + badDebt) * EXP_SCALE / (cash + borrows + badDebt - reserves);
      Done(if rate > EXP_SCALE then EXP_SCALE else rate)
  }

  /// Below full utilization, it is what is owed over what is there, truncated.
  lemma UtilizationIsFraction(cash: nat, borrows: nat, reserves: nat, badDebt: nat)
    requires reserves < cash
    ensures Utilization(cash, borrows, reserves, badDebt).Done?
    ensures var util := Utilization(cash, borrows, reserves, badDebt).value;
      util * (cash + borrows + badDebt - reserves)
        <= (borrows + badDebt) * EXP_SCALE
        < (util + 1) * (cash + borrows + badDebt - reserves)
  {
    var owed, supply := borrows + badDebt, cash + borrows + badDebt - reserves;
    DivNonNegative(owed * EXP_SCALE, supply);
    DivBounds(owed * EXP_SCALE, supply, owed * EXP_SCALE / supply);
    DivBounds(owed * EXP_SCALE, supply, owed * EXP_SCALE / supply + 1);
    DivBounds(owed * EXP_SCALE, supply, EXP_SCALE + 1);
    MulLe(owed, supply, EXP_SCALE);
  }

  /// Utilization is a fraction of one, and is full exactly when the cash does not exceed the reserves.
  lemma UtilizationInRange(cash: nat, borrows: nat, reserves: nat, badDebt: nat)
    requires Utilization(cash, borrows, reserves, badDebt).Done?
    ensures Utilization(cash, borrows, reserves, badDebt).value <= EXP_SCALE
    ensures 0 < borrows + badDebt ==>
      (Utilization(cash, borrows, reserves, badDebt).value == EXP_SCALE <==> cash <= reserves)
  {
    var owed, supply := borrows + badDebt, cash + borrows + badDebt - reserves;
    if 0 < owed {
      DivBounds(owed * EXP_SCALE, supply, EXP_SCALE);
      if cash <= reserves {
        MulLe(supply, owed, EXP_SCALE);
      } else {
        MulLe(owed + 1, supply, EXP_SCALE);
      }
    }
  }

  /// Utilization can be computed exactly when nothing is owed, and then is zero, or what is there exceeds the reserves.
  lemma UtilizationPasses(cash: nat, borrows: nat, reserves: nat, badDebt: nat)
    ensures borrows + badDebt == 0 ==> Utilization(cash, borrows, reserves, badDebt) == Done(0)
    ensures 0 < borrows + badDebt ==>
      (Utilization(cash, borrows, reserves, badDebt).Done? <==> reserves < cash + borrows + badDebt)
  {
  }

  // ---------- jump rate ----------

  datatype JumpParams = JumpParams(baseRate: nat, multiplier: nat, jumpMultiplier: nat, kink: nat)

  function JumpPerBlock(baseRatePerYear: nat, multiplierPerYear: nat, jumpMultiplierPerYear: nat, kink: nat,
                        slotsPerYear: nat): JumpParams
    requires 0 < slotsPerYear
  {
    JumpParams(baseRatePerYear / slotsPerYear, multiplierPerYear / slotsPerYear,
               jumpMultiplierPerYear / slotsPerYear, kink)
  }

  function JumpRate(p: JumpParams, util: nat): nat {
    if util <= p.kink then MulTruncate(util, p.multiplier) + p.baseRate
    else
      var normalRate := MulTruncate(p.kink, p.multiplier) + p.baseRate;
      MulTruncate(util - p.kink, p.jumpMultiplier) + normalRate
  }

  lemma JumpRateMonotone(p: JumpParams, u: nat, v: nat)
    requires u <= v
    ensures JumpRate(p, u) <= JumpRate(p, v)
  {
    SlopeIsMulTruncate(u, p.multiplier);
    SlopeIsMulTruncate(v, p.multiplier);
    SlopeIsMulTruncate(p.kink, p.multiplier);
    if u <= p.kink {
      SlopeMonotone(u, if v <= p.kink then v else p.kink, p.multiplier);
    } else {
      SlopeIsMulTruncate(u - p.kink, p.jumpMultiplier);
      SlopeIsMulTruncate(v - p.kink, p.jumpMultiplier);
      SlopeMonotone(u - p.kink, v - p.kink, p.jumpMultiplier);
    }
  }

  // ---------- two kinks ----------

  datatype TwoKinks = TwoKinks(
    baseRate: int, multiplier: int, kink1: int,
    baseRate2: int, multiplier2: int, kink2: int,
    jumpMultiplier: int)

  datatype Construction = Built(model: TwoKinks) | NegativeValueNotAllowed | InvalidKink

  /// The constructor: yearly parameters are checked and then divided down to one slot.
  function Construct(year: TwoKinks, slotsPerYear: nat): Construction
    requires 0 < slotsPerYear
  {
    if year.baseRate < 0 || year.baseRate2 < 0 then NegativeValueNotAllowed
    else if year.kink2 <= year.kink1 || year.kink1 <= 0 then InvalidKink
    else Built(TwoKinks(
      TruncDiv(year.baseRate, slotsPerYear), TruncDiv(year.multiplier, slotsPerYear), year.kink1,
      TruncDiv(year.baseRate2, slotsPerYear), TruncDiv(year.multiplier2, slotsPerYear), year.kink2,
      TruncDiv(year.jumpMultiplier, slotsPerYear)))
  }

  function Rate1(p: TwoKinks): int {
    Slope(p.kink1, p.multiplier) + p.baseRate
  }

  function Rate2(p: TwoKinks): int {
    Slope(p.kink2 - p.kink1, p.multiplier2) + p.baseRate2
  }

  /// The rate before it is capped from below.
  function RawRate(p: TwoKinks, util: nat): int {
    if util < p.kink1 then Slope(util, p.multiplier) + p.baseRate
    else if util < p.kink2 then
      Rate1(p) + (Slope(util - p.kink1, p.multiplier2) + p.baseRate2)
    else Rate1(p) + Rate2(p) + Slope(util - p.kink2, p.jumpMultiplier)
  }

  function MinCap(x: int): nat {
    if x > 0 then x else 0
  }

  function TwoKinksRate(p: TwoKinks, util: nat): nat {
    MinCap(RawRate(p, util))
  }

  /// What the constructor guarantees of every deployed model.
  ghost predicate Deployable(p: TwoKinks) {
    0 <= p.baseRate && 0 <= p.baseRate2 && 0 < p.kink1 < p.kink2
  }

  lemma TruncDivKeepsSign(a: int, b: int)
    requires 0 < b
    ensures 0 <= a ==> 0 <= TruncDiv(a, b)
    ensures a <= 0 ==> TruncDiv(a, b) <= 0
    ensures -TruncDiv(a, b) == TruncDiv(-a, b)
  {
    DivNonNegative(if 0 <= a then a else -a, b);
  }

  /// A model is built exactly when neither base rate is negative and the kinks are positive and in
  /// strict order, so two kinks never coincide; dividing by the slots of a year turns no sign around.
  lemma ConstructedModel(year: TwoKinks, slotsPerYear: nat)
    requires 0 < slotsPerYear
    ensures Construct(year, slotsPerYear).Built? <==> Deployable(year)
    ensures Construct(year, slotsPerYear).Built? ==>
      var p := Construct(year, slotsPerYear).model;
      && Deployable(p)
      && (0 <= year.multiplier ==> 0 <= p.multiplier) && (year.multiplier <= 0 ==> p.multiplier <= 0)
      && (0 <= year.multiplier2 ==> 0 <= p.multiplier2) && (year.multiplier2 <= 0 ==> p.multiplier2 <= 0)
      && (0 <= year.jumpMultiplier ==> 0 <= p.jumpMultiplier)
      && (year.jumpMultiplier <= 0 ==> p.jumpMultiplier <= 0)
  {
    TruncDivKeepsSign(year.baseRate, slotsPerYear);
    TruncDivKeepsSign(year.baseRate2, slotsPerYear);
    TruncDivKeepsSign(year.multiplier, slotsPerYear);
    TruncDivKeepsSign(year.multiplier2, slotsPerYear);
    TruncDivKeepsSign(year.jumpMultiplier, slotsPerYear);
  }

  /// The lengths of the three stretches below a utilization.
  function Stretch1(p: TwoKinks, util: int): int {
    if util < p.kink1 then util else p.kink1
  }

  function Stretch2(p: TwoKinks, util: int): int {
    if util < p.kink1 then 0 else if util < p.kink2 then util - p.kink1 else p.kink2 - p.kink1
  }

  function Stretch3(p: TwoKinks, util: int): int {
    if util < p.kink2 then 0 else util - p.kink2
  }

  /// The exact rate, times 1e18: both bases as far as they are reached, and each slope over its stretch.
  function Line(p: TwoKinks, util: int): int {
    (p.baseRate + if util < p.kink1 then 0 else p.baseRate2) * EXP_SCALE
      + Stretch1(p, util) * p.multiplier + Stretch2(p, util) * p.multiplier2 + Stretch3(p, util) * p.jumpMultiplier
  }

  lemma SlopeTruncates(util: int, slope: int)
    ensures util * slope - EXP_SCALE < Slope(util, slope) * EXP_SCALE < util * slope + EXP_SCALE
  {
  }

  /// For any signed parameters the rate follows one line with two bends and a step, to within the three
  /// truncations: less than one unit below the first kink, two up to the second, three beyond it.
  lemma RateFollowsLine(p: TwoKinks, util: nat)
    requires 0 < p.kink1 < p.kink2
    ensures var bends := 1 + (if util < p.kink1 then 0 else 1) + if util < p.kink2 then 0 else 1;
      Line(p, util) - bends * EXP_SCALE < RawRate(p, util) * EXP_SCALE < Line(p, util) + bends * EXP_SCALE
  {
    SlopeTruncates(Stretch1(p, util), p.multiplier);
    SlopeTruncates(Stretch2(p, util), p.multiplier2);
    SlopeTruncates(Stretch3(p, util), p.jumpMultiplier);
    NoStretch(p.multiplier2);
    NoStretch(p.jumpMultiplier);
  }

  lemma NoStretch(slope: int)
    ensures 0 * slope == 0
  {
  }

  ghost predicate NonNegativeSlopes(p: TwoKinks) {
    0 <= p.multiplier && 0 <= p.multiplier2 && 0 <= p.jumpMultiplier
  }

  /// With no falling slope the rate never falls as utilization rises, also across both kinks.
  lemma TwoKinksMonotone(p: TwoKinks, u: nat, v: nat)
    requires Deployable(p) && NonNegativeSlopes(p) && u <= v
    ensures TwoKinksRate(p, u) <= TwoKinksRate(p, v)
  {
    if u < p.kink1 {
      SlopeMonotone(u, if v < p.kink1 then v else p.kink1, p.multiplier);
    }
    if p.kink1 <= v {
      var from := if u < p.kink1 then 0 else u - p.kink1;
      var to := if v < p.kink2 then v - p.kink1 else p.kink2 - p.kink1;
      if from <= to {
        SlopeMonotone(from, to, p.multiplier2);
      }
    }
    if p.kink2 <= v {
      SlopeMonotone(if u < p.kink2 then 0 else u - p.kink2, v - p.kink2, p.jumpMultiplier);
    }
  }

  /// A slope's sign decides the sign of each step along it.
  lemma SlopeSteps(u: nat, v: nat, slope: int)
    requires u <= v
    ensures 0 <= slope ==> Slope(u, slope) <= Slope(v, slope)
    ensures slope <= 0 ==> Slope(v, slope) <= Slope(u, slope)
  {
    if 0 <= slope {
      SlopeMonotone(u, v, slope);
    }
    if slope <= 0 {
      SlopeMonotone(u, v, -slope);
      SlopeMirrored(u, slope);
      SlopeMirrored(v, slope);
    }
  }

  lemma SlopeMirrored(u: nat, slope: int)
    ensures Slope(u, -slope) == -Slope(u, slope)
  {
    assert u * -slope == -(u * slope);
    TruncDivKeepsSign(u * slope, EXP_SCALE);
  }

  /// On each stretch the rate falls where its slope does, and rises where its slope does.
  lemma SlopesDecide(p: TwoKinks, u: nat, v: nat)
    requires 0 < p.kink1 < p.kink2 && u <= v
    ensures v < p.kink1 ==>
      && (p.multiplier <= 0 ==> TwoKinksRate(p, v) <= TwoKinksRate(p, u))
      && (0 <= p.multiplier ==> TwoKinksRate(p, u) <= TwoKinksRate(p, v))
    ensures p.kink1 <= u && v < p.kink2 ==>
      && (p.multiplier2 <= 0 ==> TwoKinksRate(p, v) <= TwoKinksRate(p, u))
      && (0 <= p.multiplier2 ==> TwoKinksRate(p, u) <= TwoKinksRate(p, v))
    ensures p.kink2 <= u ==>
      && (p.jumpMultiplier <= 0 ==> TwoKinksRate(p, v) <= TwoKinksRate(p, u))
      && (0 <= p.jumpMultiplier ==> TwoKinksRate(p, u) <= TwoKinksRate(p, v))
  {
    if v < p.kink1 {
      SlopeSteps(u, v, p.multiplier);
    } else if p.kink1 <= u && v < p.kink2 {
      SlopeSteps(u - p.kink1, v - p.kink1, p.multiplier2);
    } else if p.kink2 <= u {
      SlopeSteps(u - p.kink2, v - p.kink2, p.jumpMultiplier);
    }
  }

  /// Where the line is three units or more below zero the rate is capped at zero, where it is three or more
  /// above it is not; and there are such models.
  lemma FallingRateIsCapped(p: TwoKinks, util: nat)
    requires 0 < p.kink1 < p.kink2
    ensures Line(p, util) <= -3 * EXP_SCALE ==> RawRate(p, util) < 0 && TwoKinksRate(p, util) == 0
    ensures Line(p, util) >= 3 * EXP_SCALE ==> TwoKinksRate(p, util) == RawRate(p, util) > 0
    ensures var q := TwoKinks(5, 0, 1, 0, 0, 2, 0 - EXP_SCALE);
      Deployable(q) && TwoKinksRate(q, 2) == 5 && RawRate(q, EXP_SCALE) < 0 && TwoKinksRate(q, EXP_SCALE) == 0
  {
    RateFollowsLine(p, util);
    assert Slope(0, 0 - EXP_SCALE) == 0 && Slope(1, 0) == 0;
    assert (EXP_SCALE - 2) * (0 - EXP_SCALE) / EXP_SCALE == 2 - EXP_SCALE;
  }

  /// The jump model that a two-kinks model with a second base of zero bends into after its first kink.
  function AsJump(p: TwoKinks): JumpParams
    requires Deployable(p) && NonNegativeSlopes(p)
  {
    JumpParams(p.baseRate, p.multiplier, p.multiplier2, p.kink1)
  }

  /// If the kinks coincided, which no deployed model's do, a second base of zero would leave exactly the
  /// jump rate, at every utilization.
  lemma CoincidingKinksCollapse(p: TwoKinks, util: nat)
    requires 0 <= p.baseRate && p.baseRate2 == 0 && 0 <= p.kink1 == p.kink2 && NonNegativeSlopes(p)
    ensures TwoKinksRate(p, util) == JumpRate(JumpParams(p.baseRate, p.multiplier, p.jumpMultiplier, p.kink1), util)
  {
    SlopeIsMulTruncate(util, p.multiplier);
    SlopeIsMulTruncate(p.kink1, p.multiplier);
    SlopeMonotone(0, util, p.multiplier);
    SlopeMonotone(0, p.kink1, p.multiplier);
    assert Slope(0, p.multiplier2) == 0 && Slope(0, p.jumpMultiplier) == 0;
    if p.kink1 < util {
      SlopeIsMulTruncate(util - p.kink1, p.jumpMultiplier);
      SlopeMonotone(0, util - p.kink1, p.jumpMultiplier);
    }
  }

  /// With the second kink out of reach of utilization, the two models agree exactly.
  lemma CollapsesToJump(p: TwoKinks, util: nat)
    requires Deployable(p) && NonNegativeSlopes(p) && p.baseRate2 == 0
    requires EXP_SCALE < p.kink2 && util <= EXP_SCALE
    ensures TwoKinksRate(p, util) == JumpRate(AsJump(p), util)
  {
    JumpBelowSecondKink(p, util);
  }

  lemma JumpBelowSecondKink(p: TwoKinks, util: nat)
    requires Deployable(p) && NonNegativeSlopes(p) && p.baseRate2 == 0 && util < p.kink2
    ensures TwoKinksRate(p, util) == JumpRate(AsJump(p), util)
  {
    SlopeIsMulTruncate(util, p.multiplier);
    SlopeIsMulTruncate(p.kink1, p.multiplier);
    SlopeMonotone(0, util, p.multiplier);
    SlopeMonotone(0, p.kink1, p.multiplier);
    if p.kink1 <= util {
      SlopeIsMulTruncate(util - p.kink1, p.multiplier2);
      SlopeMonotone(0, util - p.kink1, p.multiplier2);
      if p.kink1 == util {
        assert Slope(0, p.multiplier2) == 0;
      }
    }
  }

  /// With a second kink that does not bend, they agree to within one unit of truncation.
  lemma StraightKinkIsAlmostJump(p: TwoKinks, util: nat)
    requires Deployable(p) && NonNegativeSlopes(p) && p.baseRate2 == 0 && p.jumpMultiplier == p.multiplier2
    ensures TwoKinksRate(p, util) <= JumpRate(AsJump(p), util) <= TwoKinksRate(p, util) + 1
  {
    if util < p.kink2 {
      JumpBelowSecondKink(p, util);
    } else {
      SlopeIsMulTruncate(p.kink1, p.multiplier);
      SlopeIsMulTruncate(util - p.kink1, p.multiplier2);
      SlopeMonotone(0, p.kink1, p.multiplier);
      SlopeMonotone(0, p.kink2 - p.kink1, p.multiplier2);
      SlopeMonotone(0, util - p.kink2, p.multiplier2);
      SlopeSplit(p.kink2 - p.kink1, util - p.kink2, p.multiplier2);
    }
  }

  // ---------- supply rate ----------

  function SupplyRate(borrowRate: nat, cash: nat, borrows: nat, reserves: nat, reserveFactor: nat, badDebt: nat)
    : Outcome<nat>
  {
    if EXP_SCALE < reserveFactor then Revert(Panic)
    else
      var rateToPool := borrowRate * (EXP_SCALE - reserveFactor) / EXP_SCALE;
      if cash + borrows + badDebt <= reserves then Revert(Panic)
      else
        DivNonNegative(borrows * rateToPool, cash + borrows + badDebt - reserves);
        Done(borrows * rateToPool / (cash + borrows + badDebt - reserves))
  }

  /// Through all its truncations, the supply rate promises suppliers no more than the part of the
  /// borrowers' interest that does not go to reserves.
  lemma SuppliersNeverPromisedMore(rate: nat, cash: nat, borrows: nat, reserves: nat, factor: nat, badDebt: nat)
    requires SupplyRate(rate, cash, borrows, reserves, factor, badDebt).Done?
    ensures SupplyRate(rate, cash, borrows, reserves, factor, badDebt).value
              * (cash + borrows + badDebt - reserves) * EXP_SCALE
            <= rate * (EXP_SCALE - factor) * borrows
  {
    var supplyRate := SupplyRate(rate, cash, borrows, reserves, factor, badDebt).value;
    var supply, toPool := cash + borrows + badDebt - reserves, rate * (EXP_SCALE - factor) / EXP_SCALE;
    DivBounds(borrows * toPool, supply, supplyRate);
    DivBounds(rate * (EXP_SCALE - factor), EXP_SCALE, toPool);
    MulLe(toPool * EXP_SCALE, rate * (EXP_SCALE - factor), borrows);
    assert borrows * toPool * EXP_SCALE == toPool * EXP_SCALE * borrows;
    MulLe(supplyRate * supply, borrows * toPool, EXP_SCALE);
  }

  /// Nor much less: short by one unit on the suppliers' claim and one on the borrows.
  lemma SuppliersPromisedEnough(rate: nat, cash: nat, borrows: nat, reserves: nat, factor: nat, badDebt: nat)
    requires SupplyRate(rate, cash, borrows, reserves, factor, badDebt).Done?
    ensures rate * (EXP_SCALE - factor) * borrows
         <= (SupplyRate(rate, cash, borrows, reserves, factor, badDebt).value + 1)
              * (cash + borrows + badDebt - reserves) * EXP_SCALE
            + borrows * EXP_SCALE
  {
    var toPool := rate * (EXP_SCALE - factor) / EXP_SCALE;
    PromisedArithmetic(rate * (EXP_SCALE - factor), toPool, borrows, cash + borrows + badDebt - reserves,
                       SupplyRate(rate, cash, borrows, reserves, factor, badDebt).value);
  }

  lemma PromisedArithmetic(x: nat, toPool: nat, borrows: nat, supply: nat, promised: nat)
    requires 0 < supply && toPool == x / EXP_SCALE && promised == borrows * toPool / supply
    ensures x * borrows <= (promised + 1) * supply * EXP_SCALE + borrows * EXP_SCALE
  {
    DivBounds(x, EXP_SCALE, toPool + 1);
    DivBounds(borrows * toPool, supply, promised + 1);
    MulLe(x, (toPool + 1) * EXP_SCALE, borrows);
    assert (toPool + 1) * EXP_SCALE * borrows == borrows * toPool * EXP_SCALE + borrows * EXP_SCALE;
    MulLe(borrows * toPool, (promised + 1) * supply, EXP_SCALE);
  }

  lemma GainArithmetic(promised: nat, paid: nat, kept: nat, reserve: nat, gain: int, interest: nat)
    requires promised * EXP_SCALE <= paid * kept
    requires kept + reserve == EXP_SCALE && interest == paid / EXP_SCALE
    requires gain == interest - reserve * interest / EXP_SCALE
    ensures promised <= (gain + 1) * EXP_SCALE
  {
    DivBounds(paid, EXP_SCALE, interest + 1);
    MulLe(paid, (interest + 1) * EXP_SCALE, kept);
    assert (interest + 1) * EXP_SCALE * kept == (interest + 1) * kept * EXP_SCALE;
    assert promised <= (interest + 1) * kept;
    DivBounds(reserve * interest, EXP_SCALE, reserve * interest / EXP_SCALE);
    assert (interest + 1) * kept == interest * EXP_SCALE - reserve * interest + kept;
  }

  lemma PromiseArithmetic(supplyRate: nat, underlying: nat, slots: nat, rate: nat, kept: nat, borrows: nat)
    requires supplyRate * underlying * EXP_SCALE <= rate * kept * borrows
    ensures supplyRate * underlying * slots * EXP_SCALE <= rate * slots * borrows * kept
  {
    MulLe(supplyRate * underlying * EXP_SCALE, rate * kept * borrows, slots);
    assert supplyRate * underlying * EXP_SCALE * slots == supplyRate * underlying * slots * EXP_SCALE;
    assert rate * kept * borrows * slots == rate * slots * borrows * kept;
  }

  lemma GainFromInterest(s: AllowedSettings, m: Market, now: nat, rate: nat)
    requires m.accrualBlock < now && AccrueInterest(s, m, now, rate).Done?
    ensures var interest := MulTruncate(rate * (now - m.accrualBlock), m.totalBorrows);
      Underlying(AccrueInterest(s, m, now, rate).value) - Underlying(m)
        == interest - MulTruncate(s.reserveFactor, interest)
  {
  }

  lemma PromiseChain(supplyRate: nat, supply: nat, slots: nat, rate: nat, factor: nat, borrows: nat)
    requires factor <= EXP_SCALE && supplyRate * supply * EXP_SCALE <= rate * (EXP_SCALE - factor) * borrows
    ensures var interest := MulTruncate(rate * slots, borrows);
      supplyRate * supply * slots <= (interest - MulTruncate(factor, interest) + 1) * EXP_SCALE
  {
    var interest, kept := MulTruncate(rate * slots, borrows), EXP_SCALE - factor;
    PromiseArithmetic(supplyRate, supply, slots, rate, kept, borrows);
    GainArithmetic(supplyRate * supply * slots, rate * slots * borrows, kept, factor,
                   interest - MulTruncate(factor, interest), interest);
  }

  /// What the supply rate promises on the suppliers' claim over some slots is what accruing those
  /// slots adds to it, or at most one unit more.
  lemma PromiseIsKept(s: AllowedSettings, m: Market, now: nat, rate: nat)
    requires m.accrualBlock < now && AccrueInterest(s, m, now, rate).Done?
    requires SupplyRate(rate, m.cash, m.totalBorrows, m.totalReserves, s.reserveFactor, m.badDebt).Done?
    ensures var supplyRate :=
        SupplyRate(rate, m.cash, m.totalBorrows, m.totalReserves, s.reserveFactor, m.badDebt).value;
      var gain := Underlying(AccrueInterest(s, m, now, rate).value) - Underlying(m);
      supplyRate * Underlying(m) * (now - m.accrualBlock) <= (gain + 1) * EXP_SCALE
  {
    var supplyRate := SupplyRate(rate, m.cash, m.totalBorrows, m.totalReserves, s.reserveFactor, m.badDebt).value;
    SuppliersNeverPromisedMore(rate, m.cash, m.totalBorrows, m.totalReserves, s.reserveFactor, m.badDebt);
    PromiseChain(supplyRate, Underlying(m), now - m.accrualBlock, rate, s.reserveFactor, m.totalBorrows);
    GainFromInterest(s, m, now, rate);
  }

  /// The supply rate can be computed exactly when the reserve factor is a fraction and what is there exceeds the reserves.
  lemma SupplyRatePasses(rate: nat, cash: nat, borrows: nat, reserves: nat, factor: nat, badDebt: nat)
    ensures SupplyRate(rate, cash, borrows, reserves, factor, badDebt).Done? <==>
      (factor <= EXP_SCALE && reserves < cash + borrows + badDebt)
  {
  }

  // ---------- yearly parameters ----------

  lemma TruncDivBounds(x: int, slots: nat)
    requires 0 < slots
    ensures x - slots < TruncDiv(x, slots) * slots < x + slots
  {
  }

  lemma OverStretch(stretch: nat, slope: int, slots: nat)
    requires 0 < slots
    ensures stretch * slope - stretch * slots <= stretch * TruncDiv(slope, slots) * slots <= stretch * slope + stretch * slots
  {
    TruncDivBounds(slope, slots);
    var x := TruncDiv(slope, slots) * slots;
    MulLe(x, slope + slots, stretch);
    MulLe(slope - slots, x, stretch);
    assert stretch * TruncDiv(slope, slots) * slots == x * stretch;
    assert (slope + slots) * stretch == stretch * slope + stretch * slots;
    assert (slope - slots) * stretch == stretch * slope - stretch * slots;
  }

  lemma ThreeStretches(a: nat, b: nat, c: nat, slots: nat, util: nat)
    requires a + b + c == util <= EXP_SCALE
    ensures a * slots + b * slots + c * slots <= slots * EXP_SCALE
  {
    assert a * slots + b * slots + c * slots == util * slots;
    MulLe(util, EXP_SCALE, slots);
  }

  lemma LineTimes(base: int, x: int, y: int, z: int, slots: nat)
    ensures (base * EXP_SCALE + x + y + z) * slots == base * slots * EXP_SCALE + x * slots + y * slots + z * slots
  {
  }

  lemma BasesOverYear(year: TwoKinks, p: TwoKinks, slots: nat, second: bool)
    requires 0 < slots && Construct(year, slots) == Built(p)
    ensures var base, baseYear := p.baseRate + (if second then p.baseRate2 else 0), year.baseRate + if second then year.baseRate2 else 0;
      baseYear - 2 * slots <= base * slots <= baseYear + 2 * slots
  {
    TruncDivBounds(year.baseRate, slots);
    TruncDivBounds(year.baseRate2, slots);
    assert (p.baseRate + p.baseRate2) * slots == p.baseRate * slots + p.baseRate2 * slots;
  }

  lemma LineArithmetic(base: int, baseYear: int, x: int, y: int, z: int, x': int, y': int, z': int, e: int, slots: nat)
    requires baseYear - 2 * slots <= base * slots <= baseYear + 2 * slots
    requires x' + y' + z' - e <= x * slots + y * slots + z * slots <= x' + y' + z' + e && e <= slots * EXP_SCALE
    ensures var line, year := base * EXP_SCALE + x + y + z, baseYear * EXP_SCALE + x' + y' + z';
      year - 3 * slots * EXP_SCALE <= line * slots <= year + 3 * slots * EXP_SCALE
  {
    LineTimes(base, x, y, z, slots);
  }

  lemma LineOverYear(year: TwoKinks, p: TwoKinks, slots: nat, util: nat)
    requires 0 < slots && Construct(year, slots) == Built(p) && util <= EXP_SCALE
    ensures Line(year, util) - 3 * slots * EXP_SCALE <= Line(p, util) * slots <= Line(year, util) + 3 * slots * EXP_SCALE
  {
    var a, b, c := Stretch1(p, util), Stretch2(p, util), Stretch3(p, util);
    var second := util >= p.kink1;
    OverStretch(a, year.multiplier, slots);
    OverStretch(b, year.multiplier2, slots);
    OverStretch(c, year.jumpMultiplier, slots);
    BasesOverYear(year, p, slots, second);
    ThreeStretches(a, b, c, slots, util);
    LineArithmetic(p.baseRate + (if second then p.baseRate2 else 0), year.baseRate + (if second then year.baseRate2 else 0),
                   a * p.multiplier, b * p.multiplier2, c * p.jumpMultiplier,
                   a * year.multiplier, b * year.multiplier2, c * year.jumpMultiplier,
                   a * slots + b * slots + c * slots, slots);
  }

  lemma YearArithmetic(year: int, line: int, rate: int, slots: nat)
    requires year - 3 * slots * EXP_SCALE <= line * slots <= year + 3 * slots * EXP_SCALE
    requires line - 3 * EXP_SCALE <= rate * EXP_SCALE <= line + 3 * EXP_SCALE
    ensures year - 6 * slots * EXP_SCALE <= rate * slots * EXP_SCALE <= year + 6 * slots * EXP_SCALE
  {
    MulLe(line - 3 * EXP_SCALE, rate * EXP_SCALE, slots);
    MulLe(rate * EXP_SCALE, line + 3 * EXP_SCALE, slots);
    assert rate * EXP_SCALE * slots == rate * slots * EXP_SCALE;
    assert (line - 3 * EXP_SCALE) * slots == line * slots - 3 * slots * EXP_SCALE;
    assert (line + 3 * EXP_SCALE) * slots == line * slots + 3 * slots * EXP_SCALE;
  }

  /// A year of slots at a deployed two-kinks model's rate of one slot, before the cap, follows the line of its yearly
  /// parameters, to within six units for each slot.
  lemma TwoKinksYear(year: TwoKinks, p: TwoKinks, slots: nat, util: nat)
    requires 0 < slots && Construct(year, slots) == Built(p) && util <= EXP_SCALE
    ensures Line(year, util) - 6 * slots * EXP_SCALE <= RawRate(p, util) * slots * EXP_SCALE <= Line(year, util) + 6 * slots * EXP_SCALE
  {
    LineOverYear(year, p, slots, util);
    RateFollowsLine(p, util);
    YearArithmetic(Line(year, util), Line(p, util), RawRate(p, util), slots);
  }

  lemma DividedDown(x: nat, slots: nat)
    requires 0 < slots
    ensures x / slots * slots <= x < x / slots * slots + slots
  {
  }

  lemma SlopePerYear(util: nat, slope: nat, slots: nat)
    requires 0 < slots && util <= EXP_SCALE
    ensures MulTruncate(util, slope / slots) * slots <= MulTruncate(util, slope)
         <= MulTruncate(util, slope / slots) * slots + 2 * slots
  {
    SlopeYearArithmetic(util, slope, slope / slots, slots, MulTruncate(util, slope / slots), MulTruncate(util, slope));
  }

  lemma SlopeYearArithmetic(util: nat, slope: nat, per: nat, slots: nat, perRate: nat, rate: nat)
    requires 0 < slots && util <= EXP_SCALE && per == slope / slots
    requires perRate == util * per / EXP_SCALE && rate == util * slope / EXP_SCALE
    ensures perRate * slots <= rate <= perRate * slots + 2 * slots
  {
    DividedDown(slope, slots);
    DivBounds(util * per, EXP_SCALE, perRate);
    DivBounds(util * per, EXP_SCALE, perRate + 1);
    MulLe(perRate * EXP_SCALE, util * per, slots);
    MulLe(util * per, (perRate + 1) * EXP_SCALE, slots);
    assert util * per * slots == per * slots * util;
    MulLe(per * slots, slope, util);
    MulLe(slope, per * slots + slots, util);
    MulLe(util, EXP_SCALE, slots);
    assert (per * slots + slots) * util == util * per * slots + util * slots;
    assert slope * util == util * slope;
    assert perRate * EXP_SCALE * slots == perRate * slots * EXP_SCALE;
    assert (perRate + 1) * EXP_SCALE * slots == (perRate * slots + slots) * EXP_SCALE;
    DivBounds(util * slope, EXP_SCALE, perRate * slots);
    DivBounds(util * slope, EXP_SCALE, perRate * slots + 2 * slots + 1);
    assert util * slope <= (perRate * slots + 2 * slots) * EXP_SCALE;
  }

  /// A year of slots at the rate of one slot is the rate the yearly parameters mean, less at most five units
  /// for each slot: the updated or constructed model keeps to its yearly parameters.
  lemma YearOfSlots(base: nat, multiplier: nat, jump: nat, kink: nat, slots: nat, util: nat)
    requires 0 < slots && util <= EXP_SCALE
    ensures var perSlot, yearly := JumpRate(JumpPerBlock(base, multiplier, jump, kink, slots), util),
                                   JumpRate(JumpParams(base, multiplier, jump, kink), util);
      perSlot * slots <= yearly <= perSlot * slots + 5 * slots
  {
    DividedDown(base, slots);
    if util <= kink {
      SlopePerYear(util, multiplier, slots);
      AddUp(MulTruncate(util, multiplier / slots), 0, base / slots, slots);
    } else {
      SlopePerYear(kink, multiplier, slots);
      SlopePerYear(util - kink, jump, slots);
      AddUp(MulTruncate(kink, multiplier / slots), MulTruncate(util - kink, jump / slots), base / slots, slots);
    }
  }

  lemma AddUp(x: nat, y: nat, z: nat, slots: nat)
    ensures (x + y + z) * slots == x * slots + y * slots + z * slots
    ensures (y + (x + z)) * slots == x * slots + y * slots + z * slots
  {
  }

  // ---------- the updateable model ----------

  class JumpRateModelV2 {
    var baseRatePerBlock: nat
    var multiplierPerBlock: nat
    var jumpMultiplierPerBlock: nat
    var kink: nat
    const slotsPerYear: nat

    function Params(): JumpParams
      reads this
    {
      JumpParams(baseRatePerBlock, multiplierPerBlock, jumpMultiplierPerBlock, kink)
    }

    constructor (baseRatePerYear: nat, multiplierPerYear: nat, jumpMultiplierPerYear: nat, kink_: nat,
                 slotsPerYear_: nat)
      requires 0 < slotsPerYear_
      ensures slotsPerYear == slotsPerYear_
      ensures Params() == JumpPerBlock(baseRatePerYear, multiplierPerYear, jumpMultiplierPerYear, kink_, slotsPerYear_)
    {
      slotsPerYear := slotsPerYear_;
      baseRatePerBlock := baseRatePerYear / slotsPerYear_;
      multiplierPerBlock := multiplierPerYear / slotsPerYear_;
      jumpMultiplierPerBlock := jumpMultiplierPerYear / slotsPerYear_;
      kink := kink_;
    }

    /// An update by a caller whom access control refuses changes nothing; otherwise a year at the model's
    /// rate is what the new yearly parameters mean, up to the division into slots.
    method UpdateJumpRateModel(allowed: bool, baseRatePerYear: nat, multiplierPerYear: nat,
                               jumpMultiplierPerYear: nat, kink_: nat)
      returns (updated: bool)
      requires 0 < slotsPerYear
      modifies this
      ensures updated == allowed
      ensures Params() == if allowed
        then JumpPerBlock(baseRatePerYear, multiplierPerYear, jumpMultiplierPerYear, kink_, slotsPerYear)
        else old(Params())
      ensures allowed ==> forall util :: 0 <= util <= EXP_SCALE ==>
        var yearly := JumpRate(JumpParams(baseRatePerYear, multiplierPerYear, jumpMultiplierPerYear, kink_), util);
        JumpRate(Params(), util) * slotsPerYear <= yearly <= JumpRate(Params(), util) * slotsPerYear + 5 * slotsPerYear
    {
      if !allowed {
        return false;
      }
      forall util | 0 <= util <= EXP_SCALE
        ensures var perSlot := JumpRate(JumpPerBlock(baseRatePerYear, multiplierPerYear, jumpMultiplierPerYear, kink_,
                                                     slotsPerYear), util);
          var yearly := JumpRate(JumpParams(baseRatePerYear, multiplierPerYear, jumpMultiplierPerYear, kink_), util);
          perSlot * slotsPerYear <= yearly <= perSlot * slotsPerYear + 5 * slotsPerYear
      {
        YearOfSlots(baseRatePerYear, multiplierPerYear, jumpMultiplierPerYear, kink_, slotsPerYear, util);
      }
      baseRatePerBlock := baseRatePerYear / slotsPerYear;
      multiplierPerBlock := multiplierPerYear / slotsPerYear;
      jumpMultiplierPerBlock := jumpMultiplierPerYear / slotsPerYear;
      kink := kink_;
      updated := true;
    }

    method GetBorrowRate(cash: nat, borrows: nat, reserves: nat, badDebt: nat) returns (rate: Outcome<nat>)
      ensures var util := Utilization(cash, borrows, reserves, badDebt);
        rate == if util.Revert? then util else Done(JumpRate(Params(), util.value))
    {
      var util := Utilization(cash, borrows, reserves, badDebt);
      if util.Revert? {
        return util;
      }
      if util.value <= kink {
        return Done(MulTruncate(util.value, multiplierPerBlock) + baseRatePerBlock);
      }
      var normalRate := MulTruncate(kink, multiplierPerBlock) + baseRatePerBlock;
      var excessUtil := util.value - kink;
      rate := Done(MulTruncate(excessUtil, jumpMultiplierPerBlock) + normalRate);
    }
  }
}

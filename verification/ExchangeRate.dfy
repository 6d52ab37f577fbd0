/** Suppliers' side of the ledger: tokens are conserved, the market always backs its vTokens,
    and over every run the exchange rate never falls, whatever the truncation at each step. */
module ExchangeRate {
  import opened FixedPoint
  import opened Totals
  import opened Outcomes
  import opened Ledger

  ghost predicate SnapshotsInRange(m: Market) {
    forall a :: a in m.accountBorrows && m.accountBorrows[a].principal != 0 ==>
      EXP_SCALE <= m.accountBorrows[a].interestIndex <= m.borrowIndex
  }

  /// Holds in every reachable market.
  ghost predicate Inv(m: Market) {
    && Total(Reals(m.accountTokens)) == m.totalSupply as real
    && 0 <= Underlying(m)
    && EXP_SCALE <= m.borrowIndex
    && m.reduceReservesBlock <= m.accrualBlock
    && SnapshotsInRange(m)
  }

  /// The stored exchange rate of a market with outstanding vTokens, and 0 without.
  function Rate(m: Market): nat
    requires 0 <= Underlying(m)
  {
    if m.totalSupply == 0 then 0
    else
      DivNonNegative(Underlying(m) * EXP_SCALE, m.totalSupply);
      Underlying(m) * EXP_SCALE / m.totalSupply
  }

  /// The market can pay `rate` for each of its vTokens.
  ghost predicate Backs(m: Market, rate: nat) {
    rate * m.totalSupply <= Underlying(m) * EXP_SCALE
  }

  lemma BacksItsRate(m: Market)
    requires 0 <= Underlying(m)
    ensures Backs(m, Rate(m))
  {
    if m.totalSupply != 0 {
      DivBounds(Underlying(m) * EXP_SCALE, m.totalSupply, Rate(m));
    }
  }

  lemma BackedRate(m: Market, rate: nat)
    requires 0 <= Underlying(m) && Backs(m, rate)
    ensures 0 < m.totalSupply ==> rate <= Rate(m)
  {
    if 0 < m.totalSupply {
      DivBounds(Underlying(m) * EXP_SCALE, m.totalSupply, rate);
    }
  }

  lemma UnchangedBacking(m: Market, m': Market)
    requires Inv(m) && Underlying(m) <= Underlying(m') && m'.totalSupply == m.totalSupply
    ensures 0 <= Underlying(m') && Backs(m', Rate(m))
  {
    BacksItsRate(m);
    MulLe(Underlying(m), Underlying(m'), EXP_SCALE);
  }

  // ---------- one lemma per operation that moves value or tokens ----------

  lemma AccrueKeeps(s: AllowedSettings, m: Market, now: nat, rate: nat)
    requires Inv(m) && AccrueInterest(s, m, now, rate).Done?
    ensures var m' := AccrueInterest(s, m, now, rate).value;
      Inv(m') && Backs(m', Rate(m)) && m.borrowIndex <= m'.borrowIndex
  {
    var m' := AccrueInterest(s, m, now, rate).value;
    if now != m.accrualBlock {
      var interest := MulTruncate(rate * (now - m.accrualBlock), m.totalBorrows);
      FractionLe(s.reserveFactor, EXP_SCALE, interest);
    }
    UnchangedBacking(m, m');
  }

  /// Minting at most what the arriving amount is worth at the current rate keeps the rate backed.
  lemma MintKeepsBacking(m: Market, m': Market, rate: nat, tokens: nat, minted: nat)
    requires Inv(m) && 0 < rate && rate == Rate(m)
    requires m'.totalSupply == m.totalSupply + tokens && tokens == DivTruncate(minted, rate)
    requires Underlying(m') == Underlying(m) + minted
    ensures 0 <= Underlying(m') && Backs(m', rate)
  {
    BacksItsRate(m);
    DivBounds(minted * EXP_SCALE, rate, tokens);
    assert rate * m'.totalSupply == rate * m.totalSupply + tokens * rate;
    assert Underlying(m') * EXP_SCALE == Underlying(m) * EXP_SCALE + minted * EXP_SCALE;
  }

  lemma MintKeeps(s: Settings, m: Market, now: nat, minter: Account, amount: nat, fee: nat)
    requires Inv(m) && MintFresh(s, m, now, minter, amount, fee).Done?
    ensures var m' := MintFresh(s, m, now, minter, amount, fee).value;
      Inv(m') && Backs(m', Rate(m))
  {
    var m' := MintFresh(s, m, now, minter, amount, fee).value;
    var rate := ExchangeRateStored(s, m).value;
    var minted := Arrives(amount, fee);
    var tokens := DivTruncate(minted, rate);
    NatTotalUpdate(m.accountTokens, minter, Get(m.accountTokens, minter) + tokens);
    if m.totalSupply == 0 {
      assert Backs(m', 0);
    } else {
      MintKeepsBacking(m, m', rate, tokens, minted);
    }
  }

  /// Burning tokens for at most their worth at the current rate keeps the rate backed.
  lemma BurnKeepsBacking(m: Market, m': Market, rate: nat, tokens: nat, amount: nat)
    requires Inv(m) && 0 < m.totalSupply && rate == Rate(m)
    requires tokens <= m.totalSupply && m'.totalSupply == m.totalSupply - tokens
    requires amount == MulTruncate(rate, tokens) && Underlying(m') == Underlying(m) - amount
    ensures 0 <= Underlying(m') && Backs(m', rate)
  {
    BacksItsRate(m);
    DivBounds(rate * tokens, EXP_SCALE, amount);
    assert rate * m'.totalSupply == rate * m.totalSupply - rate * tokens;
    assert Underlying(m') * EXP_SCALE == Underlying(m) * EXP_SCALE - amount * EXP_SCALE;
    assert 0 <= rate * m'.totalSupply <= Underlying(m') * EXP_SCALE;
    if Underlying(m') < 0 {
      MulLe(Underlying(m'), -1, EXP_SCALE);
    }
  }

  lemma RedeemKeeps(s: Settings, m: Market, now: nat, redeemer: Account, tokensIn: nat, amountIn: nat)
    requires Inv(m) && RedeemFresh(s, m, now, redeemer, tokensIn, amountIn).Done?
    ensures var m' := RedeemFresh(s, m, now, redeemer, tokensIn, amountIn).value;
      Inv(m') && Backs(m', Rate(m))
  {
    var m' := RedeemFresh(s, m, now, redeemer, tokensIn, amountIn).value;
    var rate := ExchangeRateStored(s, m).value;
    var tokens := if tokensIn > 0 then tokensIn else TokensForAmount(rate, amountIn);
    NatTotalUpdate(m.accountTokens, redeemer, Get(m.accountTokens, redeemer) - tokens);
    if m.totalSupply == 0 {
      assert false;
    }
    BurnKeepsBacking(m, m', rate, tokens, MulTruncate(rate, tokens));
  }

  lemma TransferKeeps(m: Market, src: Account, dst: Account, tokens: nat)
    requires Inv(m) && TransferTokens(m, src, dst, tokens).Done?
    ensures var m' := TransferTokens(m, src, dst, tokens).value;
      Inv(m') && Backs(m', Rate(m))
  {
    NatTotalMove(m.accountTokens, src, dst, tokens, tokens);
    UnchangedBacking(m, TransferTokens(m, src, dst, tokens).value);
  }

  lemma SeizeBurns(s: Settings, m: Market, liquidator: Account, borrower: Account, tokens: nat)
    requires Inv(m) && Seize(s, m, liquidator, borrower, tokens).Done?
    ensures var m' := Seize(s, m, liquidator, borrower, tokens).value;
      var rate, toProtocol := ExchangeRateStored(s, m).value, ProtocolSeizeTokens(s, tokens);
      && Total(Reals(m'.accountTokens)) == m'.totalSupply as real
      && toProtocol <= m.totalSupply && m'.totalSupply == m.totalSupply - toProtocol
      && Underlying(m') == Underlying(m) - MulTruncate(rate, toProtocol)
  {
    NatTotalMove(m.accountTokens, borrower, liquidator, tokens, tokens - ProtocolSeizeTokens(s, tokens));
  }

  lemma SeizeKeeps(s: Settings, m: Market, liquidator: Account, borrower: Account, tokens: nat)
    requires Inv(m) && Seize(s, m, liquidator, borrower, tokens).Done?
    ensures var m' := Seize(s, m, liquidator, borrower, tokens).value;
      Inv(m') && Backs(m', Rate(m))
  {
    var m' := Seize(s, m, liquidator, borrower, tokens).value;
    var toProtocol := ProtocolSeizeTokens(s, tokens);
    var rate := ExchangeRateStored(s, m).value;
    SeizeBurns(s, m, liquidator, borrower, tokens);
    if m.totalSupply == 0 {
      assert toProtocol == 0 && MulTruncate(rate, 0) == 0;
      UnchangedBacking(m, m');
    } else {
      BurnKeepsBacking(m, m', rate, toProtocol, MulTruncate(rate, toProtocol));
    }
  }

  lemma BorrowerSideKeeps(m: Market, step: Step)
    requires Inv(m) && (step.action.Borrow? || step.action.Repay? || step.action.Heal?)
    requires Apply(m, step).Done?
    ensures var m' := Apply(m, step).value;
      Inv(m') && Backs(m', Rate(m)) && Underlying(m') == Underlying(m)
  {
    UnchangedBacking(m, Apply(m, step).value);
  }

  lemma CashSideKeeps(m: Market, step: Step)
    requires Inv(m)
    requires step.action.Recover? || step.action.WithdrawReserves? || step.action.AddReserves? || step.action.Donate?
    requires Apply(m, step).Done?
    ensures var m' := Apply(m, step).value;
      Inv(m') && Backs(m', Rate(m))
  {
    UnchangedBacking(m, Apply(m, step).value);
  }

  /// What every call keeps: the invariant, and that the old exchange rate can still be paid.
  lemma StepKeeps(m: Market, step: Step)
    requires Inv(m)
    ensures Inv(After(m, step)) && Backs(After(m, step), Rate(m))
    ensures 0 < After(m, step).totalSupply ==> Rate(m) <= Rate(After(m, step))
  {
    BacksItsRate(m);
    var s, now := step.settings, step.now;
    if Apply(m, step).Done? {
      match step.action
      case Accrue(rate) => AccrueKeeps(s, m, now, rate);
      case Mint(minter, amount, fee) => MintKeeps(s, m, now, minter, amount, fee);
      case Redeem(redeemer, tokensIn, amountIn) => RedeemKeeps(s, m, now, redeemer, tokensIn, amountIn);
      case Transfer(src, dst, tokens) => TransferKeeps(m, src, dst, tokens);
      case SeizeCollateral(liquidator, borrower, tokens) => SeizeKeeps(s, m, liquidator, borrower, tokens);
      case Borrow(_, _) => BorrowerSideKeeps(m, step);
      case Repay(_, _, _) => BorrowerSideKeeps(m, step);
      case Heal(_, _, _) => BorrowerSideKeeps(m, step);
      case Recover(_) => CashSideKeeps(m, step);
      case WithdrawReserves(_) => CashSideKeeps(m, step);
      case AddReserves(_, _) => CashSideKeeps(m, step);
      case Donate(_) => CashSideKeeps(m, step);
    }
    BackedRate(After(m, step), Rate(m));
  }

  lemma NewMarketInv(now: nat)
    ensures Inv(NewMarket(now))
  {
  }

  /// vTokens are outstanding at every point of the run after its start.
  ghost predicate StaysSupplied(m: Market, steps: seq<Step>)
    decreases |steps|
  {
    steps == [] || (After(m, steps[0]).totalSupply > 0 && StaysSupplied(After(m, steps[0]), steps[1..]))
  }

  /// Over every run, tokens are conserved and the market stays able to pay its claims; and as long
  /// as vTokens stay outstanding, the exchange rate never falls.
  lemma {:induction false} RateNeverFalls(m: Market, steps: seq<Step>)
    requires Inv(m)
    ensures Inv(Run(m, steps))
    ensures StaysSupplied(m, steps) ==> Rate(m) <= Rate(Run(m, steps))
    decreases |steps|
  {
    if steps != [] {
      StepKeeps(m, steps[0]);
      RateNeverFalls(After(m, steps[0]), steps[1..]);
    }
  }

  /// In a reachable market the exchange rate can always be read: its subtraction never underflows.
  lemma RateIsReadable(s: Settings, now: nat, steps: seq<Step>)
    ensures var m := Run(NewMarket(now), steps);
      Inv(m) && ExchangeRateStored(s, m) == Done(if m.totalSupply == 0 then s.initialExchangeRate else Rate(m))
  {
    NewMarketInv(now);
    RateNeverFalls(NewMarket(now), steps);
  }

  /// A supplier who names the amount to redeem gets at least that amount, and overshoots by at most
  /// what one vToken is worth; too small a request pays nothing and is refused.
  lemma RedeemUnderlyingPays(rate: nat, amountIn: nat)
    requires 0 < rate
    ensures var paid := MulTruncate(rate, TokensForAmount(rate, amountIn));
      paid == 0 || amountIn <= paid <= amountIn + rate / EXP_SCALE + 1
  {
    var k := DivTruncate(amountIn, rate);
    DivBounds(amountIn * EXP_SCALE, rate, k);
    DivBounds(amountIn * EXP_SCALE, rate, k + 1);
    assert rate * k == k * rate && rate * (k + 1) == k * rate + rate == (k + 1) * rate;
    DivMono(amountIn * EXP_SCALE, rate * (k + 1), EXP_SCALE);
    DivMono(rate * k, amountIn * EXP_SCALE, EXP_SCALE);
    assert amountIn * EXP_SCALE / EXP_SCALE == amountIn;
    DivSplit(rate * k, rate, EXP_SCALE);
  }
}

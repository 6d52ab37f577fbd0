/** What each call of a VToken does for those concerned, in terms of balances and amounts: who gets what,
    up to which truncation, and that nobody else is touched. */
module Operations {
  import opened FixedPoint
  import opened Totals
  import opened Outcomes
  import opened Ledger
  import opened ExchangeRate
  import opened Borrowers

  ghost predicate OnlyTokensOf(m: Market, m': Market, concerned: set<Account>) {
    forall a | a !in concerned :: Get(m'.accountTokens, a) == Get(m.accountTokens, a)
  }

  ghost predicate OnlyDebtOf(m: Market, m': Market, borrower: Account) {
    forall a | a != borrower :: Balance(m', a) == Balance(m, a)
  }

  lemma DivideFairly(amount: nat, rate: nat)
    requires 0 < rate
    ensures DivTruncate(amount, rate) * rate <= amount * EXP_SCALE < (DivTruncate(amount, rate) + 1) * rate
  {
    DivBounds(amount * EXP_SCALE, rate, DivTruncate(amount, rate));
    DivBounds(amount * EXP_SCALE, rate, DivTruncate(amount, rate) + 1);
  }

  /// The stored exchange rate is the initial one without vTokens, and with vTokens their part of cash, borrows and bad
  /// debt beyond the reserves, less than one unit down; in a reachable market it can always be read.
  lemma RateIsPart(s: Settings, m: Market)
    requires Inv(m)
    ensures ExchangeRateStored(s, m).Done?
    ensures var rate := ExchangeRateStored(s, m).value;
      && (m.totalSupply == 0 ==> rate == s.initialExchangeRate)
      && (m.totalSupply != 0 ==>
            rate * m.totalSupply <= (m.cash + m.totalBorrows + m.badDebt - m.totalReserves) * EXP_SCALE < (rate + 1) * m.totalSupply)
  {
    if m.totalSupply != 0 {
      var x := Underlying(m) * EXP_SCALE;
      DivBounds(x, m.totalSupply, x / m.totalSupply);
      DivBounds(x, m.totalSupply, x / m.totalSupply + 1);
    }
  }

  /// A mint passes exactly in a market accrued to this slot whose exchange rate can be read and is not zero.
  lemma MintPasses(s: Settings, m: Market, now: nat, minter: Account, amount: nat, fee: nat)
    ensures MintFresh(s, m, now, minter, amount, fee).Done? <==>
      (m.accrualBlock == now && ExchangeRateStored(s, m).Done? && ExchangeRateStored(s, m).value != 0)
    ensures m.accrualBlock != now ==> MintFresh(s, m, now, minter, amount, fee) == Revert(FreshnessCheck)
  {
  }

  /// The minter gets the vTokens that what arrived is worth at the current rate, less than one vToken down.
  lemma MintIsFair(s: Settings, m: Market, now: nat, minter: Account, amount: nat, fee: nat)
    requires MintFresh(s, m, now, minter, amount, fee).Done?
    ensures ExchangeRateStored(s, m).Done?
    ensures var m', rate := MintFresh(s, m, now, minter, amount, fee).value, ExchangeRateStored(s, m).value;
      var arrived, tokens := Arrives(amount, fee), Get(m'.accountTokens, minter) - Get(m.accountTokens, minter);
      && 0 <= tokens && tokens * rate <= arrived * EXP_SCALE < (tokens + 1) * rate
      && m'.totalSupply == m.totalSupply + tokens && m'.cash == m.cash + arrived
      && OnlyTokensOf(m, m', {minter}) && m'.accountBorrows == m.accountBorrows
      && m'.totalBorrows == m.totalBorrows && m'.totalReserves == m.totalReserves && m'.badDebt == m.badDebt
  {
    DivideFairly(Arrives(amount, fee), ExchangeRateStored(s, m).value);
  }

  /// A redeemer gives up the named vTokens, or as many as the named amount takes, and is paid their worth
  /// at the current rate, less than one unit down; reserves are never paid out.
  lemma RedeemIsFair(s: Settings, m: Market, now: nat, redeemer: Account, tokensIn: nat, amountIn: nat)
    requires RedeemFresh(s, m, now, redeemer, tokensIn, amountIn).Done?
    ensures ExchangeRateStored(s, m).Done?
    ensures var m', rate := RedeemFresh(s, m, now, redeemer, tokensIn, amountIn).value, ExchangeRateStored(s, m).value;
      var tokens, paid := Get(m.accountTokens, redeemer) - Get(m'.accountTokens, redeemer), m.cash - m'.cash;
      && 0 <= tokens && 0 < paid && paid * EXP_SCALE <= tokens * rate < (paid + 1) * EXP_SCALE
      && (tokensIn > 0 ==> tokens == tokensIn) && (tokensIn == 0 ==> amountIn <= paid)
      && m'.totalSupply == m.totalSupply - tokens && m.totalReserves <= m'.cash
      && OnlyTokensOf(m, m', {redeemer}) && m'.accountBorrows == m.accountBorrows
      && m'.totalBorrows == m.totalBorrows && m'.totalReserves == m.totalReserves && m'.badDebt == m.badDebt
  {
    var rate := ExchangeRateStored(s, m).value;
    var tokens := if tokensIn > 0 then tokensIn else TokensForAmount(rate, amountIn);
    var paid := MulTruncate(rate, tokens);
    PaidBounds(rate, tokens);
    if tokensIn == 0 {
      RedeemUnderlyingPays(rate, amountIn);
      SamePayment(rate, tokens);
    }
  }

  /// A redeem of tokens passes exactly when it pays something, cash beyond the reserves has it, and the redeemer has the
  /// tokens; a redeem of an amount takes the tokens that RedeemUnderlyingPays bounds.
  lemma RedeemPasses(s: Settings, m: Market, now: nat, redeemer: Account, tokensIn: nat, amountIn: nat)
    requires Inv(m)
    ensures ExchangeRateStored(s, m).Done?
    ensures var rate := ExchangeRateStored(s, m).value;
      var tokens := if tokensIn > 0 then tokensIn else if rate == 0 then 0 else TokensForAmount(rate, amountIn);
      RedeemFresh(s, m, now, redeemer, tokensIn, amountIn).Done? <==>
        (&& (tokensIn == 0 || amountIn == 0) && m.accrualBlock == now
         && EXP_SCALE <= rate * tokens && m.totalReserves + rate * tokens / EXP_SCALE <= m.cash
         && tokens <= Get(m.accountTokens, redeemer))
    ensures m.accrualBlock != now ==> RedeemFresh(s, m, now, redeemer, tokensIn, amountIn).Revert?
  {
    RateIsPart(s, m);
    var rate := ExchangeRateStored(s, m).value;
    var tokens := if tokensIn > 0 then tokensIn else if rate == 0 then 0 else TokensForAmount(rate, amountIn);
    SupplyCovers(m, redeemer);
    PaysSomething(rate, tokens);
    if rate == 0 {
      assert rate * tokens == 0;
    }
  }

  /// The tokens that a redeem of an amount takes: the most that are worth no more than the amount, and one more if
  /// these are worth less, unless they are worth less than one unit, when the redeem pays nothing and fails.
  lemma TokensTaken(rate: nat, amountIn: nat)
    requires 0 < rate
    ensures var q := amountIn * EXP_SCALE / rate;
      && q * rate <= amountIn * EXP_SCALE < (q + 1) * rate
      && (q * rate < EXP_SCALE || q * rate == amountIn * EXP_SCALE ==> TokensForAmount(rate, amountIn) == q)
      && (EXP_SCALE <= q * rate < amountIn * EXP_SCALE ==> TokensForAmount(rate, amountIn) == q + 1)
  {
    var q := amountIn * EXP_SCALE / rate;
    DivBounds(amountIn * EXP_SCALE, rate, q);
    DivBounds(amountIn * EXP_SCALE, rate, q + 1);
    DivBounds(q * rate, EXP_SCALE, 1);
    DivBounds(q * rate, EXP_SCALE, amountIn);
    DivNonNegative(q * rate, EXP_SCALE);
    DivBounds(q * rate, EXP_SCALE, amountIn + 1);
  }

  lemma SupplyCovers(m: Market, a: Account)
    requires Inv(m)
    ensures Get(m.accountTokens, a) <= m.totalSupply
  {
    TotalNonNegative(Reals(m.accountTokens));
    assert At(Reals(m.accountTokens), a) == Get(m.accountTokens, a) as real;
  }

  lemma PaysSomething(rate: nat, tokens: nat)
    ensures MulTruncate(rate, tokens) == 0 <==> rate * tokens < EXP_SCALE
  {
    DivBounds(rate * tokens, EXP_SCALE, 1);
    DivNonNegative(rate * tokens, EXP_SCALE);
  }

  lemma PaidBounds(rate: nat, tokens: nat)
    ensures MulTruncate(rate, tokens) * EXP_SCALE <= tokens * rate < (MulTruncate(rate, tokens) + 1) * EXP_SCALE
  {
    DivBounds(rate * tokens, EXP_SCALE, MulTruncate(rate, tokens));
    DivBounds(rate * tokens, EXP_SCALE, MulTruncate(rate, tokens) + 1);
    assert rate * tokens == tokens * rate;
  }

  lemma SamePayment(rate: nat, tokens: nat)
    ensures MulTruncate(rate, tokens) == MulTruncate(tokens, rate)
  {
  }

  /// A borrow goes through exactly in a market accrued to this slot when the cash beyond the reserves covers it; it
  /// raises the borrower's balance and totalBorrows by what is paid out, and nobody else's balance.
  lemma BorrowAddsUp(m: Market, now: nat, borrower: Account, amount: nat)
    requires Inv(m)
    ensures BorrowFresh(m, now, borrower, amount).Done? <==> m.accrualBlock == now && m.totalReserves + amount <= m.cash
    ensures BorrowFresh(m, now, borrower, amount).Done? ==>
      var m' := BorrowFresh(m, now, borrower, amount).value;
      && Balance(m', borrower) == Balance(m, borrower) + amount
      && m'.totalBorrows == m.totalBorrows + amount && m'.cash == m.cash - amount
      && OnlyDebtOf(m, m', borrower) && m'.accountTokens == m.accountTokens && m'.totalSupply == m.totalSupply
  {
    BalanceIsFloor(m, borrower);
    WrittenBalance(Balance(m, borrower) + amount, m.borrowIndex);
  }

  /// A repayment passes exactly in a market accrued to this slot when what arrives is at most totalBorrows. It lowers
  /// the borrower's balance and totalBorrows by what arrives; offering more than is owed pays what is owed.
  lemma RepayAddsUp(m: Market, now: nat, borrower: Account, amount: nat, fee: nat)
    requires Inv(m)
    ensures RepayBorrowFresh(m, now, borrower, amount, fee).Done? <==>
      (m.accrualBlock == now
       && Arrives(if Balance(m, borrower) <= amount then Balance(m, borrower) else amount, fee) <= m.totalBorrows)
    ensures RepayBorrowFresh(m, now, borrower, amount, fee).Done? ==>
      var m' := RepayBorrowFresh(m, now, borrower, amount, fee).value;
      var repaid := Arrives(if Balance(m, borrower) <= amount then Balance(m, borrower) else amount, fee);
      && Balance(m', borrower) == Balance(m, borrower) - repaid
      && m'.totalBorrows == m.totalBorrows - repaid && m'.cash == m.cash + repaid
      && OnlyDebtOf(m, m', borrower) && m'.accountTokens == m.accountTokens && m'.totalSupply == m.totalSupply
  {
    BalanceIsFloor(m, borrower);
    var repaid := Arrives(if Balance(m, borrower) <= amount then Balance(m, borrower) else amount, fee);
    WrittenBalance(Balance(m, borrower) - repaid, m.borrowIndex);
  }

  /// A seizure passes exactly for somebody else's tokens, as many as there are, when the protocol's share is no more
  /// than is seized and cash covers what that share is worth.
  lemma SeizePasses(s: Settings, m: Market, liquidator: Account, borrower: Account, tokens: nat)
    requires Inv(m) && 0 < s.liquidationIncentive
    ensures ExchangeRateStored(s, m).Done?
    ensures var toProtocol := ProtocolSeizeTokens(s, tokens);
      Seize(s, m, liquidator, borrower, tokens).Done? <==>
        (&& liquidator != borrower && toProtocol <= tokens <= Get(m.accountTokens, borrower)
         && ExchangeRateStored(s, m).value * toProtocol / EXP_SCALE <= m.cash)
  {
    RateIsPart(s, m);
    SupplyCovers(m, borrower);
  }

  /// Seized vTokens are split: the protocol's share is burnt and paid out to the protocol at the current
  /// rate, the rest goes to the liquidator, and the borrower loses exactly both.
  lemma SeizeSplits(s: Settings, m: Market, liquidator: Account, borrower: Account, tokens: nat)
    requires Seize(s, m, liquidator, borrower, tokens).Done?
    ensures liquidator != borrower && 0 < s.liquidationIncentive && ExchangeRateStored(s, m).Done?
    ensures var m', rate := Seize(s, m, liquidator, borrower, tokens).value, ExchangeRateStored(s, m).value;
      var kept, paid := m.totalSupply - m'.totalSupply, m.cash - m'.cash;
      && Get(m'.accountTokens, borrower) == Get(m.accountTokens, borrower) - tokens
      && Get(m'.accountTokens, liquidator) == Get(m.accountTokens, liquidator) + tokens - kept
      && 0 <= kept <= tokens
      && kept * s.liquidationIncentive <= MulTruncate(tokens, s.protocolSeizeShare) * EXP_SCALE
                                        < (kept + 1) * s.liquidationIncentive
      && 0 <= paid && paid * EXP_SCALE <= kept * rate < (paid + 1) * EXP_SCALE
      && OnlyTokensOf(m, m', {liquidator, borrower}) && m'.accountBorrows == m.accountBorrows
  {
    DivideFairly(MulTruncate(tokens, s.protocolSeizeShare), s.liquidationIncentive);
    PaidBounds(ExchangeRateStored(s, m).value, ProtocolSeizeTokens(s, tokens));
  }

  /// Accruing charges borrowers the rate for the slots passed, less than one unit down, on totalBorrows and
  /// on the index alike; reserves get the reserve factor's part of it, less than one unit down. What is
  /// paid out to the protocol comes from reserves only, only when its waiting time is over, and then
  /// leaves no reserves or no cash.
  lemma AccrualAddsUp(s: AllowedSettings, m: Market, now: nat, rate: nat)
    requires m.accrualBlock < now && AccrueInterest(s, m, now, rate).Done?
    ensures Charged(s, m, now, rate, AccrueInterest(s, m, now, rate).value)
  {
    BookedParts(s, m, now, rate);
    AccrualStages(s, m, now, rate);
  }

  /// What an accrual books, before anything is paid out.
  lemma BookedParts(s: AllowedSettings, m: Market, now: nat, rate: nat)
    requires m.accrualBlock < now
    ensures var booked, charge := BookInterest(s, m, now, rate), rate * (now - m.accrualBlock);
      var interest, toReserves := booked.totalBorrows - m.totalBorrows, booked.totalReserves - m.totalReserves;
      && PartOf(interest, charge, m.totalBorrows) && PartOf(booked.borrowIndex - m.borrowIndex, charge, m.borrowIndex)
      && PartOf(toReserves, s.reserveFactor, interest) && toReserves <= interest
      && booked.accountTokens == m.accountTokens && booked.accountBorrows == m.accountBorrows
      && booked.totalSupply == m.totalSupply && booked.badDebt == m.badDebt && booked.cash == m.cash
  {
    var factor := rate * (now - m.accrualBlock);
    var interest := MulTruncate(factor, m.totalBorrows);
    TruncatedPart(factor, m.totalBorrows);
    TruncatedPart(factor, m.borrowIndex);
    TruncatedPart(s.reserveFactor, interest);
    FractionLe(s.reserveFactor, EXP_SCALE, interest);
  }

  ghost predicate Charged(s: AllowedSettings, m: Market, now: nat, rate: nat, m': Market) {
    var interest, growth := m'.totalBorrows - m.totalBorrows, m'.borrowIndex - m.borrowIndex;
    var paidOut := m.cash - m'.cash;
    var toReserves := m'.totalReserves - m.totalReserves + paidOut;
    && PartOf(interest, rate * (now - m.accrualBlock), m.totalBorrows)
    && PartOf(growth, rate * (now - m.accrualBlock), m.borrowIndex)
    && PartOf(toReserves, s.reserveFactor, interest) && toReserves <= interest
    && 0 <= paidOut
    && (now - m.reduceReservesBlock < s.reduceReservesDelta ==> paidOut == 0)
    && (now - m.reduceReservesBlock >= s.reduceReservesDelta ==> m'.totalReserves == 0 || m'.cash == 0)
    && m'.accountTokens == m.accountTokens && m'.accountBorrows == m.accountBorrows
    && m'.totalSupply == m.totalSupply && m'.badDebt == m.badDebt
  }

  /// A mantissa's part of an amount, less than one unit down.
  ghost predicate PartOf(part: int, mantissa: int, amount: int) {
    part * EXP_SCALE <= mantissa * amount < (part + 1) * EXP_SCALE
  }

  lemma TruncatedPart(mantissa: nat, amount: nat)
    ensures PartOf(MulTruncate(mantissa, amount), mantissa, amount)
  {
    DivBounds(mantissa * amount, EXP_SCALE, MulTruncate(mantissa, amount));
    DivBounds(mantissa * amount, EXP_SCALE, MulTruncate(mantissa, amount) + 1);
  }

  lemma AccrualStages(s: AllowedSettings, m: Market, now: nat, rate: nat)
    requires m.accrualBlock < now && AccrueInterest(s, m, now, rate).Done?
    ensures var m', booked := AccrueInterest(s, m, now, rate).value, BookInterest(s, m, now, rate);
      var paidOut := m.cash - m'.cash;
      && m' == booked.(cash := m'.cash, totalReserves := m'.totalReserves, reduceReservesBlock := m'.reduceReservesBlock)
      && 0 <= paidOut == booked.totalReserves - m'.totalReserves
      && (now - m.reduceReservesBlock < s.reduceReservesDelta ==> paidOut == 0)
      && (now - m.reduceReservesBlock >= s.reduceReservesDelta ==> m'.totalReserves == 0 || m'.cash == 0)
  {
  }

  /// An accrual in the slot of the last one does nothing. Otherwise it passes exactly when the rate is within its limit
  /// and neither the last accrual nor the last payout lies in the future: the payout itself never fails. The market is
  /// accrued to this slot, and marked as paid out in it exactly when the waiting time is over.
  lemma AccrualPasses(s: AllowedSettings, m: Market, now: nat, rate: nat)
    ensures now == m.accrualBlock ==> AccrueInterest(s, m, now, rate) == Done(m)
    ensures now != m.accrualBlock ==>
      (AccrueInterest(s, m, now, rate).Done? <==>
         rate <= s.maxBorrowRate && m.accrualBlock < now && m.reduceReservesBlock <= now)
    ensures now != m.accrualBlock && AccrueInterest(s, m, now, rate).Done? ==>
      var m' := AccrueInterest(s, m, now, rate).value;
      && m'.accrualBlock == now
      && m'.reduceReservesBlock == if m.reduceReservesBlock + s.reduceReservesDelta <= now then now else m.reduceReservesBlock
  {
  }

  /// What reserves an accrual pays out when its waiting time is over: all of them, as far as there is cash.
  lemma PayoutIsAll(s: AllowedSettings, m: Market, now: nat, rate: nat)
    requires m.accrualBlock < now && AccrueInterest(s, m, now, rate).Done?
    requires m.reduceReservesBlock + s.reduceReservesDelta <= now
    ensures var m' := AccrueInterest(s, m, now, rate).value;
      var reserves := m'.totalReserves + (m.cash - m'.cash);
      m.cash - m'.cash == if m.cash < reserves then m.cash else reserves
  {
    AccrualStages(s, m, now, rate);
  }

  /// A withdrawal of reserves. Where reserves went out already in this slot, also on accruing, it passes and changes
  /// nothing; otherwise one of something passes exactly in a market accrued to this slot that has the amount both in
  /// cash and in reserves, and lowers both by exactly the amount and nothing else.
  lemma ReservesGoOut(m: Market, now: nat, amount: nat)
    ensures m.reduceReservesBlock == now ==> ReduceReserves(m, now, amount) == Done(m)
    ensures amount == 0 ==> ReduceReserves(m, now, amount) == Done(m)
    ensures m.reduceReservesBlock != now && amount != 0 ==>
      (ReduceReserves(m, now, amount).Done? <==>
         m.accrualBlock == now && amount <= m.cash && amount <= m.totalReserves)
    ensures m.reduceReservesBlock != now && ReduceReserves(m, now, amount).Done? ==>
      var m' := ReduceReserves(m, now, amount).value;
      m'.cash == m.cash - amount && m'.totalReserves == m.totalReserves - amount
      && m' == m.(cash := m'.cash, totalReserves := m'.totalReserves)
  {
  }

  /// Adding to the reserves passes exactly in a market accrued to this slot, and adds what arrives to cash and reserves.
  lemma ReservesComeIn(m: Market, now: nat, amount: nat, fee: nat)
    ensures AddReservesFresh(m, now, amount, fee).Done? <==> m.accrualBlock == now
    ensures m.accrualBlock == now ==>
      var m' := AddReservesFresh(m, now, amount, fee).value;
      m'.cash - m.cash == m'.totalReserves - m.totalReserves == Arrives(amount, fee)
      && m' == m.(cash := m'.cash, totalReserves := m'.totalReserves)
  {
  }

  /// Bad debt is recovered exactly up to what there is, for as much cash.
  lemma RecoveryAddsUp(m: Market, amount: nat)
    ensures BadDebtRecovered(m, amount).Done? <==> amount <= m.badDebt
    ensures amount <= m.badDebt ==>
      var m' := BadDebtRecovered(m, amount).value;
      m'.cash - m.cash == m.badDebt - m'.badDebt == amount && m' == m.(cash := m'.cash, badDebt := m'.badDebt)
  {
  }

  /// Tokens sent to the market outside its calls are cash, which is nobody's borrow or reserve.
  lemma GiftsAreCash(s: AllowedSettings, m: Market, now: nat, amount: nat)
    ensures Apply(m, Step(s, now, Donate(amount))).Done?
    ensures var m' := After(m, Step(s, now, Donate(amount))); m'.cash - m.cash == amount && m' == m.(cash := m'.cash)
  {
  }

  /// A transfer moves exactly the tokens named and changes nothing else.
  lemma TransferMoves(m: Market, src: Account, dst: Account, tokens: nat)
    ensures TransferTokens(m, src, dst, tokens).Done? <==> src != dst && tokens <= Get(m.accountTokens, src)
    ensures TransferTokens(m, src, dst, tokens).Done? ==>
      var m' := TransferTokens(m, src, dst, tokens).value;
      && Get(m'.accountTokens, src) == Get(m.accountTokens, src) - tokens
      && Get(m'.accountTokens, dst) == Get(m.accountTokens, dst) + tokens
      && OnlyTokensOf(m, m', {src, dst}) && m' == m.(accountTokens := m'.accountTokens)
  {
  }
}

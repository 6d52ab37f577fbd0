/** The ledger of one VToken market as a state machine over values: what each internal
    operation of the contract does to the stored numbers, and when it reverts. */
module Ledger {
  import opened FixedPoint
  import opened Outcomes
  import opened Totals

  type Account = nat

  /// A borrower's balance when last touched, and the borrow index at that moment.
  datatype BorrowSnapshot = BorrowSnapshot(principal: nat, interestIndex: nat)

  /// Numbers that governance sets. The setters and constructors refuse what IsAllowed rules out.
  datatype Settings = Settings(
    initialExchangeRate: nat,
    reserveFactor: nat,
    maxBorrowRate: nat,
    reduceReservesDelta: nat,
    protocolSeizeShare: nat,
    liquidationIncentive: nat)
  {
    predicate IsAllowed() {
      reserveFactor <= EXP_SCALE && maxBorrowRate <= EXP_SCALE
    }
  }

  type AllowedSettings = s: Settings | s.IsAllowed()
    witness Settings(1, 0, 0, 0, 0, EXP_SCALE)

  datatype Market = Market(
    cash: nat,
    totalBorrows: nat,
    badDebt: nat,
    totalReserves: nat,
    totalSupply: nat,
    borrowIndex: nat,
    accrualBlock: nat,
    reduceReservesBlock: nat,
    accountTokens: map<Account, nat>,
    accountBorrows: map<Account, BorrowSnapshot>)

  /// What reaches the market when `sent` tokens are transferred in and the token keeps `fee`.
  /// Every amount from 0 to `sent` is possible.
  function Arrives(sent: nat, fee: nat): (arrived: nat)
    ensures arrived <= sent && (fee <= sent ==> arrived + fee == sent)
  {
    if fee <= sent then sent - fee else 0
  }

  /// cash + borrows + badDebt - reserves: what the outstanding vTokens are a claim on.
  function Underlying(m: Market): int {
    m.cash + m.totalBorrows + m.badDebt - m.totalReserves
  }

  function ExchangeRateStored(s: Settings, m: Market): Outcome<nat> {
    if m.totalSupply == 0 then Done(s.initialExchangeRate)
    else if Underlying(m) < 0 then Revert(Panic)
    else
      DivNonNegative(Underlying(m) * EXP_SCALE, m.totalSupply);
      Done(Underlying(m) * EXP_SCALE / m.totalSupply)
  }

  function BorrowBalanceStored(m: Market, a: Account): Outcome<nat> {
    if a !in m.accountBorrows || m.accountBorrows[a].principal == 0 then Done(0)
    else if m.accountBorrows[a].interestIndex == 0 then Revert(Panic)
    else Done(m.accountBorrows[a].principal * m.borrowIndex / m.accountBorrows[a].interestIndex)
  }

  // ---------- interest ----------

  /// Books the interest of `now - accrualBlock` slots at borrow rate `rate`.
  function BookInterest(s: Settings, m: Market, now: nat, rate: nat): Market
    requires m.accrualBlock <= now
  {
    var factor := rate * (now - m.accrualBlock);
    var interest := MulTruncate(factor, m.totalBorrows);
    m.(accrualBlock := now,
       borrowIndex := MulTruncate(factor, m.borrowIndex) + m.borrowIndex,
       totalBorrows := interest + m.totalBorrows,
       totalReserves := MulTruncate(s.reserveFactor, interest) + m.totalReserves)
  }

  function ReduceReservesFresh(m: Market, now: nat, amount: nat): Outcome<Market> {
    if amount == 0 then Done(m)
    else if m.accrualBlock != now then Revert(FreshnessCheck)
    else if m.cash < amount then Revert(ReduceReservesCashNotAvailable)
    else if amount > m.totalReserves then Revert(ReduceReservesCashValidation)
    else Done(m.(totalReserves := m.totalReserves - amount, cash := m.cash - amount))
  }

  function AccrueInterest(s: Settings, m: Market, now: nat, rate: nat): Outcome<Market> {
    if now == m.accrualBlock then Done(m)
    else if rate > s.maxBorrowRate then Revert(BorrowRateAbsurdlyHigh)
    else if now < m.accrualBlock then Revert(Panic)
    else
      var booked := BookInterest(s, m, now, rate);
      if now < m.reduceReservesBlock then Revert(Panic)
      else if now - m.reduceReservesBlock < s.reduceReservesDelta then Done(booked)
      else
        var amount := if m.cash < booked.totalReserves then m.cash else booked.totalReserves;
        ReduceReservesFresh(booked.(reduceReservesBlock := now), now, amount)
  }

  function ReduceReserves(m: Market, now: nat, amount: nat): Outcome<Market> {
    if m.reduceReservesBlock == now then Done(m) else ReduceReservesFresh(m, now, amount)
  }

  function AddReservesFresh(m: Market, now: nat, amount: nat, fee: nat): Outcome<Market> {
    if m.accrualBlock != now then Revert(FreshnessCheck)
    else
      var added := Arrives(amount, fee);
      Done(m.(totalReserves := m.totalReserves + added, cash := m.cash + added))
  }

  // ---------- suppliers ----------

  function MintFresh(s: Settings, m: Market, now: nat, minter: Account, amount: nat, fee: nat): Outcome<Market> {
    if m.accrualBlock != now then Revert(FreshnessCheck)
    else match ExchangeRateStored(s, m)
      case Revert(e) => Revert(e)
      case Done(rate) =>
        if rate == 0 then Revert(Panic)
        else
          var minted := Arrives(amount, fee);
          var tokens := DivTruncate(minted, rate);
          Done(m.(cash := m.cash + minted,
                  totalSupply := m.totalSupply + tokens,
                  accountTokens := m.accountTokens[minter := Get(m.accountTokens, minter) + tokens]))
  }

  /// The number of vTokens given up for `amountIn` of the underlying asset.
  function TokensForAmount(rate: nat, amountIn: nat): nat
    requires 0 < rate
  {
    var tokens := DivTruncate(amountIn, rate);
    var amount := MulTruncate(tokens, rate);
    if amount != 0 && amount != amountIn then tokens + 1 else tokens
  }

  function RedeemFresh(s: Settings, m: Market, now: nat, redeemer: Account, tokensIn: nat, amountIn: nat)
    : Outcome<Market>
  {
    if tokensIn != 0 && amountIn != 0 then Revert(OneOfRedeemInputsMustBeZero)
    else if m.accrualBlock != now then Revert(FreshnessCheck)
    else match ExchangeRateStored(s, m)
      case Revert(e) => Revert(e)
      case Done(rate) =>
        if tokensIn == 0 && rate == 0 then Revert(Panic)
        else
          var tokens := if tokensIn > 0 then tokensIn else TokensForAmount(rate, amountIn);
          var amount := MulTruncate(rate, tokens);
          if amount == 0 then Revert(RedeemAmountIsZero)
          else if m.cash < m.totalReserves then Revert(Panic)
          else if m.cash - m.totalReserves < amount then Revert(RedeemTransferOutNotPossible)
          else if m.totalSupply < tokens || Get(m.accountTokens, redeemer) < tokens then Revert(Panic)
          else
            Done(m.(cash := m.cash - amount,
                    totalSupply := m.totalSupply - tokens,
                    accountTokens := m.accountTokens[redeemer := Get(m.accountTokens, redeemer) - tokens]))
  }

  function TransferTokens(m: Market, src: Account, dst: Account, tokens: nat): Outcome<Market> {
    if src == dst then Revert(TransferNotAllowed)
    else if Get(m.accountTokens, src) < tokens then Revert(Panic)
    else
      Done(m.(accountTokens := m.accountTokens[src := Get(m.accountTokens, src) - tokens]
                                              [dst := Get(m.accountTokens, dst) + tokens]))
  }

  // ---------- borrowers ----------

  function BorrowFresh(m: Market, now: nat, borrower: Account, amount: nat): Outcome<Market> {
    if m.accrualBlock != now then Revert(FreshnessCheck)
    else if m.cash < m.totalReserves then Revert(Panic)
    else if m.cash - m.totalReserves < amount then Revert(BorrowCashNotAvailable)
    else match BorrowBalanceStored(m, borrower)
      case Revert(e) => Revert(e)
      case Done(balance) =>
        Done(m.(cash := m.cash - amount,
                totalBorrows := m.totalBorrows + amount,
                accountBorrows := m.accountBorrows[borrower := BorrowSnapshot(balance + amount, m.borrowIndex)]))
  }

  function RepayBorrowFresh(m: Market, now: nat, borrower: Account, amount: nat, fee: nat): Outcome<Market> {
    if m.accrualBlock != now then Revert(FreshnessCheck)
    else match BorrowBalanceStored(m, borrower)
      case Revert(e) => Revert(e)
      case Done(balance) =>
        var repaid := Arrives(if amount >= balance then balance else amount, fee);
        if m.totalBorrows < repaid then Revert(Panic)
        else
          Done(m.(cash := m.cash + repaid,
                  totalBorrows := m.totalBorrows - repaid,
                  accountBorrows := m.accountBorrows[borrower := BorrowSnapshot(balance - repaid, m.borrowIndex)]))
  }

  /// Repays `amount` of a borrow and writes the rest off as bad debt.
  function HealBorrow(m: Market, borrower: Account, amount: nat, fee: nat): Outcome<Market> {
    match BorrowBalanceStored(m, borrower)
    case Revert(e) => Revert(e)
    case Done(balance) =>
      var repaid := Arrives(amount, fee);
      if m.totalBorrows < repaid || balance < repaid then Revert(Panic)
      else
        var forgiven := balance - repaid;
        if m.totalBorrows - repaid < forgiven then Revert(Panic)
        else
          Done(m.(cash := m.cash + repaid,
                  totalBorrows := m.totalBorrows - repaid - forgiven,
                  badDebt := m.badDebt + forgiven,
                  accountBorrows := m.accountBorrows[borrower := BorrowSnapshot(0, m.borrowIndex)]))
  }

  /// An auction hands `amount` of the underlying asset to the market and lowers its bad debt by it.
  function BadDebtRecovered(m: Market, amount: nat): Outcome<Market> {
    if amount > m.badDebt then Revert(MoreThanBadDebtRecovered)
    else Done(m.(cash := m.cash + amount, badDebt := m.badDebt - amount))
  }

  // ---------- liquidation ----------

  function ProtocolSeizeTokens(s: Settings, seizeTokens: nat): nat
    requires 0 < s.liquidationIncentive
  {
    DivTruncate(MulTruncate(seizeTokens, s.protocolSeizeShare), s.liquidationIncentive)
  }

  function Seize(s: Settings, m: Market, liquidator: Account, borrower: Account, seizeTokens: nat)
    : Outcome<Market>
  {
    if borrower == liquidator then Revert(LiquidatorIsBorrower)
    else if s.liquidationIncentive == 0 then Revert(Panic)
    else
      var toProtocol := ProtocolSeizeTokens(s, seizeTokens);
      if seizeTokens < toProtocol then Revert(Panic)
      else match ExchangeRateStored(s, m)
        case Revert(e) => Revert(e)
        case Done(rate) =>
          var amount := MulTruncate(rate, toProtocol);
          if m.totalSupply < toProtocol || Get(m.accountTokens, borrower) < seizeTokens then Revert(Panic)
          else if m.cash < amount then Revert(TransferOutFailed)
          else
            Done(m.(cash := m.cash - amount,
                    totalSupply := m.totalSupply - toProtocol,
                    accountTokens := m.accountTokens
                                     [borrower := Get(m.accountTokens, borrower) - seizeTokens]
                                     [liquidator := Get(m.accountTokens, liquidator) + seizeTokens - toProtocol]))
  }

  // ---------- runs ----------

  /// One successful or reverting call. Donate is a plain token transfer to the market's address.
  datatype Action =
    | Accrue(rate: nat)
    | Mint(minter: Account, amount: nat, fee: nat)
    | Redeem(redeemer: Account, tokensIn: nat, amountIn: nat)
    | Transfer(src: Account, dst: Account, tokens: nat)
    | Borrow(borrower: Account, amount: nat)
    | Repay(borrower: Account, amount: nat, fee: nat)
    | Heal(borrower: Account, amount: nat, fee: nat)
    | Recover(amount: nat)
    | SeizeCollateral(liquidator: Account, borrower: Account, tokens: nat)
    | WithdrawReserves(amount: nat)
    | AddReserves(amount: nat, fee: nat)
    | Donate(amount: nat)

  datatype Step = Step(settings: AllowedSettings, now: nat, action: Action)

  function Apply(m: Market, step: Step): Outcome<Market> {
    var s, now := step.settings, step.now;
    match step.action
    case Accrue(rate) => AccrueInterest(s, m, now, rate)
    case Mint(minter, amount, fee) => MintFresh(s, m, now, minter, amount, fee)
    case Redeem(redeemer, tokensIn, amountIn) => RedeemFresh(s, m, now, redeemer, tokensIn, amountIn)
    case Transfer(src, dst, tokens) => TransferTokens(m, src, dst, tokens)
    case Borrow(borrower, amount) => BorrowFresh(m, now, borrower, amount)
    case Repay(borrower, amount, fee) => RepayBorrowFresh(m, now, borrower, amount, fee)
    case Heal(borrower, amount, fee) => HealBorrow(m, borrower, amount, fee)
    case Recover(amount) => BadDebtRecovered(m, amount)
    case SeizeCollateral(liquidator, borrower, tokens) => Seize(s, m, liquidator, borrower, tokens)
    case WithdrawReserves(amount) => ReduceReserves(m, now, amount)
    case AddReserves(amount, fee) => AddReservesFresh(m, now, amount, fee)
    case Donate(amount) => Done(m.(cash := m.cash + amount))
  }

  /// A reverted call leaves the market as it was.
  function After(m: Market, step: Step): Market {
    match Apply(m, step)
    case Done(m') => m'
    case Revert(_) => m
  }

  function Run(m: Market, steps: seq<Step>): Market
    decreases |steps|
  {
    if steps == [] then m else Run(After(m, steps[0]), steps[1..])
  }

  function NewMarket(now: nat): Market {
    Market(0, 0, 0, 0, 0, EXP_SCALE, now, 0, map[], map[])
  }
}

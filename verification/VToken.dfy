/** The VToken contract: one market's storage, updated in place. Every method does what the ledger's
    function of the same name says, and a reverting call leaves the storage as it found it. */
module VTokenContract {
  import opened FixedPoint
  import opened Totals
  import opened Outcomes
  import opened Ledger
  import opened ExchangeRate
  import opened Operations

  datatype Status = Ok | Failed(error: Error)

  /// The call from `before` to `after` behaved as `outcome` says.
  ghost predicate Agrees(outcome: Outcome<Market>, before: Market, status: Status, after: Market) {
    match outcome
    case Done(m) => status == Ok && after == m
    case Revert(e) => status == Failed(e) && after == before
  }

  lemma BurnsNothing(m: Market, step: Step)
    requires step.action.Accrue? || step.action.Mint? || step.action.Repay? || step.action.WithdrawReserves?
    ensures m.totalSupply <= After(m, step).totalSupply
  {
  }

  /// Two calls in a row, neither of which burns tokens.
  lemma ThroughBoth(m: Market, first: Step, second: Step)
    requires Inv(m)
    requires first.action.Accrue? && (second.action.Mint? || second.action.Repay? || second.action.WithdrawReserves?)
    ensures var m' := After(After(m, first), second);
      Inv(m') && (0 < m.totalSupply ==> Rate(m) <= Rate(m'))
  {
    StepKeeps(m, first);
    StepKeeps(After(m, first), second);
    BurnsNothing(m, first);
    BurnsNothing(After(m, first), second);
  }

  /// An external call accrues first and then does the fresh operation, all or nothing.
  function Then(accrued: Outcome<Market>, next: Market -> Outcome<Market>): Outcome<Market> {
    match accrued
    case Done(m) => next(m)
    case Revert(e) => Revert(e)
  }

  /// The largest number of the contract's width stands for no limit.
  const INFINITE: nat := 0x1_0000000000000000_0000000000000000_0000000000000000_0000000000000000 - 1

  type Allowances = map<(Account, Account), nat>

  /// Owners may spend what they have, others what the owner has allowed them.
  predicate MaySpend(allowances: Allowances, spender: Account, src: Account, tokens: nat) {
    spender == src || tokens <= Get(allowances, (src, spender))
  }

  /// A limited allowance is used up; all others stay.
  function Spent(allowances: Allowances, spender: Account, src: Account, tokens: nat): Allowances {
    if spender == src || Get(allowances, (src, spender)) == INFINITE || Get(allowances, (src, spender)) < tokens then allowances
    else allowances[(src, spender) := Get(allowances, (src, spender)) - tokens]
  }

  class VToken {
    var cash: nat
    var totalBorrows: nat
    var badDebt: nat
    var totalReserves: nat
    var totalSupply: nat
    var borrowIndex: nat
    var accrualBlock: nat
    var reduceReservesBlock: nat
    var accountTokens: map<Account, nat>
    var accountBorrows: map<Account, BorrowSnapshot>
    var transferAllowances: Allowances

    function State(): Market
      reads this
    {
      Market(cash, totalBorrows, badDebt, totalReserves, totalSupply, borrowIndex, accrualBlock,
             reduceReservesBlock, accountTokens, accountBorrows)
    }

    constructor (now: nat)
      ensures State() == NewMarket(now) && Inv(State())
    {
      cash, totalBorrows, badDebt, totalReserves, totalSupply := 0, 0, 0, 0, 0;
      borrowIndex, accrualBlock, reduceReservesBlock := EXP_SCALE, now, 0;
      accountTokens, accountBorrows, transferAllowances := map[], map[], map[];
      new;
      NewMarketInv(now);
    }

    /// An EVM revert: the storage is what it was.
    method Rollback(m: Market)
      modifies this
      ensures State() == m
    {
      cash, totalBorrows, badDebt, totalReserves := m.cash, m.totalBorrows, m.badDebt, m.totalReserves;
      totalSupply, borrowIndex := m.totalSupply, m.borrowIndex;
      accrualBlock, reduceReservesBlock := m.accrualBlock, m.reduceReservesBlock;
      accountTokens, accountBorrows := m.accountTokens, m.accountBorrows;
    }

    method AccrueInterest(s: AllowedSettings, now: nat, rate: nat) returns (status: Status)
      modifies this
      ensures Agrees(Ledger.AccrueInterest(s, old(State()), now, rate), old(State()), status, State())
    {
      if accrualBlock == now {
        return Ok;
      }
      if rate > s.maxBorrowRate {
        return Failed(BorrowRateAbsurdlyHigh);
      }
      if now < accrualBlock || now < reduceReservesBlock {
        return Failed(Panic);
      }
      var factor := rate * (now - accrualBlock);
      var interest := MulTruncate(factor, totalBorrows);
      var cashPrior := cash;
      accrualBlock := now;
      borrowIndex := MulTruncate(factor, borrowIndex) + borrowIndex;
      totalBorrows := interest + totalBorrows;
      totalReserves := MulTruncate(s.reserveFactor, interest) + totalReserves;
      if now - reduceReservesBlock >= s.reduceReservesDelta {
        reduceReservesBlock := now;
        if cashPrior < totalReserves {
          status := ReduceReservesFresh(now, cashPrior);
        } else {
          status := ReduceReservesFresh(now, totalReserves);
        }
      } else {
        status := Ok;
      }
    }

    method ReduceReservesFresh(now: nat, amount: nat) returns (status: Status)
      modifies this`totalReserves, this`cash
      ensures Agrees(Ledger.ReduceReservesFresh(old(State()), now, amount), old(State()), status, State())
    {
      if amount == 0 {
        return Ok;
      }
      if accrualBlock != now {
        return Failed(FreshnessCheck);
      }
      if cash < amount {
        return Failed(ReduceReservesCashNotAvailable);
      }
      if amount > totalReserves {
        return Failed(ReduceReservesCashValidation);
      }
      totalReserves := totalReserves - amount;
      cash := cash - amount;
      status := Ok;
    }

    method AddReservesFresh(now: nat, amount: nat, fee: nat) returns (status: Status)
      modifies this`totalReserves, this`cash
      ensures Agrees(Ledger.AddReservesFresh(old(State()), now, amount, fee), old(State()), status, State())
    {
      if accrualBlock != now {
        return Failed(FreshnessCheck);
      }
      var added := Arrives(amount, fee);
      cash := cash + added;
      totalReserves := totalReserves + added;
      status := Ok;
    }

    method MintFresh(s: AllowedSettings, now: nat, minter: Account, amount: nat, fee: nat)
      returns (status: Status)
      modifies this`cash, this`totalSupply, this`accountTokens
      ensures Agrees(Ledger.MintFresh(s, old(State()), now, minter, amount, fee), old(State()), status, State())
    {
      if accrualBlock != now {
        return Failed(FreshnessCheck);
      }
      var rate := ExchangeRateStored(s, State());
      if rate.Revert? {
        return Failed(rate.error);
      }
      if rate.value == 0 {
        return Failed(Panic);
      }
      var minted := Arrives(amount, fee);
      cash := cash + minted;
      var tokens := DivTruncate(minted, rate.value);
      totalSupply := totalSupply + tokens;
      accountTokens := accountTokens[minter := Get(accountTokens, minter) + tokens];
      status := Ok;
    }

    method RedeemFresh(s: AllowedSettings, now: nat, redeemer: Account, tokensIn: nat, amountIn: nat)
      returns (status: Status)
      modifies this`cash, this`totalSupply, this`accountTokens
      ensures Agrees(Ledger.RedeemFresh(s, old(State()), now, redeemer, tokensIn, amountIn),
                     old(State()), status, State())
    {
      if tokensIn != 0 && amountIn != 0 {
        return Failed(OneOfRedeemInputsMustBeZero);
      }
      if accrualBlock != now {
        return Failed(FreshnessCheck);
      }
      var rate := ExchangeRateStored(s, State());
      if rate.Revert? {
        return Failed(rate.error);
      }
      var tokens := tokensIn;
      if tokensIn == 0 {
        if rate.value == 0 {
          return Failed(Panic);
        }
        tokens := DivTruncate(amountIn, rate.value);
        var whole := MulTruncate(tokens, rate.value);
        if whole != 0 && whole != amountIn {
          tokens := tokens + 1;
        }
      }
      var amount := MulTruncate(rate.value, tokens);
      if amount == 0 {
        return Failed(RedeemAmountIsZero);
      }
      if cash < totalReserves {
        return Failed(Panic);
      }
      if cash - totalReserves < amount {
        return Failed(RedeemTransferOutNotPossible);
      }
      if totalSupply < tokens || Get(accountTokens, redeemer) < tokens {
        return Failed(Panic);
      }
      totalSupply := totalSupply - tokens;
      accountTokens := accountTokens[redeemer := Get(accountTokens, redeemer) - tokens];
      cash := cash - amount;
      status := Ok;
    }

    /// A transfer by its owner, or by a spender within the owner's allowance, which it uses up.
    method TransferTokens(spender: Account, src: Account, dst: Account, tokens: nat) returns (status: Status)
      modifies this`accountTokens, this`transferAllowances
      ensures src != dst && !MaySpend(old(transferAllowances), spender, src, tokens) ==>
        status == Failed(Panic) && State() == old(State())
      ensures src == dst || MaySpend(old(transferAllowances), spender, src, tokens) ==>
        Agrees(Ledger.TransferTokens(old(State()), src, dst, tokens), old(State()), status, State())
      ensures transferAllowances ==
        if status == Ok then Spent(old(transferAllowances), spender, src, tokens) else old(transferAllowances)
    {
      if src == dst {
        return Failed(TransferNotAllowed);
      }
      var startingAllowance := if spender == src then INFINITE else Get(transferAllowances, (src, spender));
      if startingAllowance < tokens && spender != src {
        return Failed(Panic);
      }
      if Get(accountTokens, src) < tokens {
        return Failed(Panic);
      }
      var srcTokensNew := Get(accountTokens, src) - tokens;
      var dstTokensNew := Get(accountTokens, dst) + tokens;
      accountTokens := accountTokens[src := srcTokensNew];
      accountTokens := accountTokens[dst := dstTokensNew];
      if startingAllowance != INFINITE {
        transferAllowances := transferAllowances[(src, spender) := startingAllowance - tokens];
      }
      status := Ok;
    }

    method BorrowFresh(now: nat, borrower: Account, amount: nat) returns (status: Status)
      modifies this`cash, this`totalBorrows, this`accountBorrows
      ensures Agrees(Ledger.BorrowFresh(old(State()), now, borrower, amount), old(State()), status, State())
    {
      if accrualBlock != now {
        return Failed(FreshnessCheck);
      }
      if cash < totalReserves {
        return Failed(Panic);
      }
      if cash - totalReserves < amount {
        return Failed(BorrowCashNotAvailable);
      }
      var balance := BorrowBalanceStored(State(), borrower);
      if balance.Revert? {
        return Failed(balance.error);
      }
      accountBorrows := accountBorrows[borrower := BorrowSnapshot(balance.value + amount, borrowIndex)];
      totalBorrows := totalBorrows + amount;
      cash := cash - amount;
      status := Ok;
    }

    method RepayBorrowFresh(now: nat, borrower: Account, amount: nat, fee: nat) returns (status: Status)
      modifies this`cash, this`totalBorrows, this`accountBorrows
      ensures Agrees(Ledger.RepayBorrowFresh(old(State()), now, borrower, amount, fee),
                     old(State()), status, State())
    {
      if accrualBlock != now {
        return Failed(FreshnessCheck);
      }
      var balance := BorrowBalanceStored(State(), borrower);
      if balance.Revert? {
        return Failed(balance.error);
      }
      var repaid := Arrives(if amount >= balance.value then balance.value else amount, fee);
      if totalBorrows < repaid {
        return Failed(Panic);
      }
      cash := cash + repaid;
      accountBorrows := accountBorrows[borrower := BorrowSnapshot(balance.value - repaid, borrowIndex)];
      totalBorrows := totalBorrows - repaid;
      status := Ok;
    }

    method HealBorrow(borrower: Account, amount: nat, fee: nat) returns (status: Status)
      modifies this`cash, this`totalBorrows, this`badDebt, this`accountBorrows
      ensures Agrees(Ledger.HealBorrow(old(State()), borrower, amount, fee), old(State()), status, State())
    {
      var balance := BorrowBalanceStored(State(), borrower);
      if balance.Revert? {
        return Failed(balance.error);
      }
      var repaid := Arrives(amount, fee);
      if totalBorrows < repaid || balance.value < repaid {
        return Failed(Panic);
      }
      var totalBorrowsNew := totalBorrows - repaid;
      var badDebtDelta := balance.value - repaid;
      if totalBorrowsNew < badDebtDelta {
        return Failed(Panic);
      }
      if badDebtDelta != 0 {
        totalBorrowsNew := totalBorrowsNew - badDebtDelta;
        badDebt := badDebt + badDebtDelta;
      }
      cash := cash + repaid;
      accountBorrows := accountBorrows[borrower := BorrowSnapshot(0, borrowIndex)];
      totalBorrows := totalBorrowsNew;
      status := Ok;
    }

    method BadDebtRecovered(amount: nat) returns (status: Status)
      modifies this`cash, this`badDebt
      ensures Agrees(Ledger.BadDebtRecovered(old(State()), amount), old(State()), status, State())
    {
      if amount > badDebt {
        return Failed(MoreThanBadDebtRecovered);
      }
      cash := cash + amount;
      badDebt := badDebt - amount;
      status := Ok;
    }

    method Seize(s: AllowedSettings, liquidator: Account, borrower: Account, seizeTokens: nat)
      returns (status: Status)
      modifies this`cash, this`totalSupply, this`accountTokens
      ensures Agrees(Ledger.Seize(s, old(State()), liquidator, borrower, seizeTokens),
                     old(State()), status, State())
    {
      if borrower == liquidator {
        return Failed(LiquidatorIsBorrower);
      }
      if s.liquidationIncentive == 0 {
        return Failed(Panic);
      }
      var numerator := MulTruncate(seizeTokens, s.protocolSeizeShare);
      var protocolSeizeTokens := DivTruncate(numerator, s.liquidationIncentive);
      if seizeTokens < protocolSeizeTokens {
        return Failed(Panic);
      }
      var rate := ExchangeRateStored(s, State());
      if rate.Revert? {
        return Failed(rate.error);
      }
      var amount := MulTruncate(rate.value, protocolSeizeTokens);
      if totalSupply < protocolSeizeTokens || Get(accountTokens, borrower) < seizeTokens {
        return Failed(Panic);
      }
      if cash < amount {
        return Failed(TransferOutFailed);
      }
      totalSupply := totalSupply - protocolSeizeTokens;
      accountTokens := accountTokens[borrower := Get(accountTokens, borrower) - seizeTokens];
      accountTokens := accountTokens[liquidator := Get(accountTokens, liquidator)
                                                   + (seizeTokens - protocolSeizeTokens)];
      cash := cash - amount;
      status := Ok;
    }

    /// The minter pays the rate after accrual, and nobody's rate is lowered.
    method Mint(s: AllowedSettings, now: nat, rate: nat, minter: Account, amount: nat, fee: nat)
      returns (status: Status)
      requires Inv(State())
      modifies this
      ensures Inv(State())
      ensures Agrees(Then(Ledger.AccrueInterest(s, old(State()), now, rate), m => Ledger.MintFresh(s, m, now, minter, amount, fee)),
                     old(State()), status, State())
      ensures 0 < old(totalSupply) ==> Rate(old(State())) <= Rate(State())
    {
      ThroughBoth(State(), Step(s, now, Accrue(rate)), Step(s, now, Action.Mint(minter, amount, fee)));
      var saved := State();
      status := AccrueInterest(s, now, rate);
      if status == Ok {
        status := MintFresh(s, now, minter, amount, fee);
        if status != Ok {
          Rollback(saved);
        }
      }
    }

    method RepayBorrow(s: AllowedSettings, now: nat, rate: nat, borrower: Account, amount: nat, fee: nat)
      returns (status: Status)
      requires Inv(State())
      modifies this
      ensures Inv(State())
      ensures Agrees(Then(Ledger.AccrueInterest(s, old(State()), now, rate), m => Ledger.RepayBorrowFresh(m, now, borrower, amount, fee)),
                     old(State()), status, State())
      ensures 0 < old(totalSupply) ==> Rate(old(State())) <= Rate(State())
    {
      ThroughBoth(State(), Step(s, now, Accrue(rate)), Step(s, now, Repay(borrower, amount, fee)));
      var saved := State();
      status := AccrueInterest(s, now, rate);
      if status == Ok {
        status := RepayBorrowFresh(now, borrower, amount, fee);
        if status != Ok {
          Rollback(saved);
        }
      }
    }

    /// Reserves that went out already in this slot, also on accruing, are not asked for again.
    method ReduceReserves(s: AllowedSettings, now: nat, rate: nat, amount: nat) returns (status: Status)
      requires Inv(State())
      modifies this
      ensures Inv(State())
      ensures Agrees(Then(Ledger.AccrueInterest(s, old(State()), now, rate), m => Ledger.ReduceReserves(m, now, amount)),
                     old(State()), status, State())
      ensures 0 < old(totalSupply) ==> Rate(old(State())) <= Rate(State())
      ensures var accrued := Ledger.AccrueInterest(s, old(State()), now, rate);
        accrued.Done? ==>
          var m := accrued.value;
          && (m.reduceReservesBlock == now ==> status == Ok && State() == m)
          && (m.reduceReservesBlock != now ==>
                && (status == Ok <==> amount <= m.cash && amount <= m.totalReserves)
                && (status == Ok ==> State() == m.(cash := m.cash - amount, totalReserves := m.totalReserves - amount)))
    {
      AccrualPasses(s, State(), now, rate);
      ThroughBoth(State(), Step(s, now, Accrue(rate)), Step(s, now, WithdrawReserves(amount)));
      var saved := State();
      status := AccrueInterest(s, now, rate);
      if status == Ok && reduceReservesBlock != now {
        status := ReduceReservesFresh(now, amount);
        if status != Ok {
          Rollback(saved);
        }
      }
    }
  }
}

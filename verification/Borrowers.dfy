/** Borrowers' side of the ledger. Each balance grows with the borrow index and totalBorrows grows by
    its own truncated interest, so the two drift apart; this module bounds by how much over every run,
    and says exactly when a repayment is refused because of it. */
module Borrowers {
  import opened FixedPoint
  import opened Totals
  import opened Outcomes
  import opened Ledger
  import opened ExchangeRate

  const ONE: real := EXP_SCALE as real

  /// A borrow in units of the index: principal / interestIndex, exactly.
  ghost function IndexShare(b: BorrowSnapshot): real {
    if b.principal == 0 || b.interestIndex == 0 then 0.0
    else b.principal as real / b.interestIndex as real
  }

  ghost function IndexShares(m: Market): map<Account, real> {
    map a | a in m.accountBorrows :: IndexShare(m.accountBorrows[a])
  }

  /// What an account owes, as the contract reports it.
  function Balance(m: Market, a: Account): nat {
    match BorrowBalanceStored(m, a)
    case Done(balance) => balance
    case Revert(_) => 0
  }

  ghost function Balances(m: Market): map<Account, real> {
    map a | a in m.accountBorrows :: Balance(m, a) as real
  }

  /// shares * index <= borrows + accruals * index / 1e18, without the division.
  ghost predicate Within(shares: real, index: real, borrows: real, accruals: real) {
    shares * ONE * index <= ONE * borrows + accruals * index
  }

  /// All debts, exactly, exceed totalBorrows by at most the index (as a multiple of its first value,
  /// 1e18) for each accrual so far.
  ghost predicate DebtWithin(m: Market, accruals: nat) {
    Within(Total(IndexShares(m)), m.borrowIndex as real, m.totalBorrows as real, accruals as real)
  }

  // ---------- the arithmetic of one step ----------

  /// Accruing by a factor grows a stored number by at most the factor, and by at least it less one unit.
  lemma GrowthOf(factor: nat, x: nat)
    ensures var g := 1.0 + factor as real / ONE;
      var grown := (MulTruncate(factor, x) + x) as real;
      x as real <= grown <= g * x as real < grown + 1.0
  {
    DivNonNegative(factor * x, EXP_SCALE);
    FloorOfQuotient(factor * x, EXP_SCALE);
    assert (factor * x) as real / ONE == (factor as real * x as real) / ONE
        == factor as real / ONE * x as real;
    assert (1.0 + factor as real / ONE) * x as real == x as real + factor as real / ONE * x as real;
  }

  /// The same with the division.
  lemma WithinRatio(shares: real, index: real, borrows: real, n: real)
    requires 0.0 < index
    ensures Within(shares, index, borrows, n) <==> Times(ONE, shares) <= Times(ONE, borrows / index) + n
  {
    var q := borrows / index;
    RealDivBounds(borrows, index);
    assert (ONE * q + n) * index == ONE * borrows + n * index;
    if ONE * shares <= ONE * q + n {
      RealMulLe(ONE * shares, ONE * q + n, index);
    } else if Within(shares, index, borrows, n) {
      RealMulCancel(ONE * shares, ONE * q + n, index);
    }
  }

  /// The borrows per index unit fall by at most what a borrow of one unit is worth.
  lemma RatioFalls(g: real, index: real, index': real, b: real, b': real)
    requires 0.0 < index && 0.0 < index' <= g * index
    requires 0.0 <= b && g * b <= b' + 1.0
    ensures b / index <= (b' + 1.0) / index'
  {
    var q, q' := b / index, (b' + 1.0) / index';
    RealDivBounds(b, index);
    RealDivBounds(b' + 1.0, index');
    RealMulCancel(0.0, q, index);
    RealMulLe(index', g * index, q);
    assert g * index * q == g * (q * index);
    RealMulCancel(q, q', index');
  }

  lemma OneOver(b: real, index: real)
    requires ONE <= index
    ensures Times(ONE, (b + 1.0) / index) <= Times(ONE, b / index) + 1.0
  {
    var q := b / index;
    var r := 1.0 / index;
    RealDivBounds(b, index);
    RealDivBounds(1.0, index);
    assert (q + r) * index == b + 1.0;
    assert (b + 1.0) / index == q + r;
    RealMulCancel(ONE * r, 1.0, index);
  }

  lemma AccrualArithmetic(shares: real, g: real, index: real, index': real, borrows: real, borrows': real, n: real)
    requires ONE <= index <= index' <= g * index
    requires 0.0 <= borrows && g * borrows <= borrows' + 1.0
    requires Within(shares, index, borrows, n)
    ensures Within(shares, index', borrows', n + 1.0)
  {
    WithinRatio(shares, index, borrows, n);
    RatioFalls(g, index, index', borrows, borrows');
    TimesMonotone(ONE, borrows / index, (borrows' + 1.0) / index');
    OneOver(borrows', index');
    WithinRatio(shares, index', borrows', n + 1.0);
  }

  /// Replacing one share by another whose worth grows by no more than totalBorrows does.
  lemma BorrowArithmetic(shares: real, before: real, after: real, index: real, borrows: real, borrows': real, n: real)
    requires Within(shares, index, borrows, n)
    requires Times(after, index) - Times(before, index) <= borrows' - borrows
    ensures Within(shares - before + after, index, borrows', n)
  {
    var gain := after * index - before * index;
    assert (shares - before + after) * ONE * index == shares * ONE * index + ONE * gain;
    assert ONE * (borrows' - borrows) == ONE * borrows' - ONE * borrows;
  }

  lemma QuotientTimes(p: nat, x: nat, i: nat)
    requires 0 < i
    ensures (p * x) as real / i as real == Times(p as real / i as real, x as real)
  {
    var p', x', i' := p as real, x as real, i as real;
    assert (p * x) as real == p' * x';
    assert p' * x' / i' == p' / i' * x';
  }

  /// The reported balance is the share's worth, truncated.
  lemma BalanceIsFloor(m: Market, a: Account)
    requires Inv(m)
    ensures BorrowBalanceStored(m, a).Done?
    ensures Balance(m, a) as real <= Times(At(IndexShares(m), a), m.borrowIndex as real)
                                  < Balance(m, a) as real + 1.0
  {
    if a in m.accountBorrows && m.accountBorrows[a].principal != 0 {
      var b := m.accountBorrows[a];
      FloorOfQuotient(b.principal * m.borrowIndex, b.interestIndex);
      QuotientTimes(b.principal, m.borrowIndex, b.interestIndex);
    }
  }

  /// A balance written at the current index is worth exactly itself.
  lemma WorthOfNew(balance: nat, index: nat)
    requires 0 < index
    ensures Times(IndexShare(BorrowSnapshot(balance, index)), index as real) == balance as real
  {
    RealDivBounds(balance as real, index as real);
  }

  lemma SharesAfter(m: Market, m': Market, a: Account, b: BorrowSnapshot)
    requires m'.accountBorrows == m.accountBorrows[a := b]
    ensures Total(IndexShares(m')) == Total(IndexShares(m)) - At(IndexShares(m), a) + IndexShare(b)
  {
    assert IndexShares(m') == IndexShares(m)[a := IndexShare(b)];
    TotalUpdate(IndexShares(m), a, IndexShare(b));
  }

  /// Writing one borrower's new balance at the current index.
  lemma RewriteBorrow(m: Market, m': Market, a: Account, balance': nat, accruals: nat)
    requires Inv(m) && DebtWithin(m, accruals)
    requires m'.borrowIndex == m.borrowIndex
    requires m'.accountBorrows == m.accountBorrows[a := BorrowSnapshot(balance', m.borrowIndex)]
    requires balance' - Balance(m, a) <= m'.totalBorrows - m.totalBorrows
    ensures DebtWithin(m', accruals)
  {
    var b := BorrowSnapshot(balance', m.borrowIndex);
    SharesAfter(m, m', a, b);
    BalanceIsFloor(m, a);
    WorthOfNew(balance', m.borrowIndex);
    BorrowArithmetic(Total(IndexShares(m)), At(IndexShares(m), a), IndexShare(b), m.borrowIndex as real,
                     m.totalBorrows as real, m'.totalBorrows as real, accruals as real);
  }

  /// 1 for a call that books interest, else 0.
  function Accruals1(m: Market, step: Step): nat {
    if step.action.Accrue? && step.now != m.accrualBlock && Apply(m, step).Done? then 1 else 0
  }

  function Accruals(m: Market, steps: seq<Step>): nat
    decreases |steps|
  {
    if steps == [] then 0 else Accruals1(m, steps[0]) + Accruals(After(m, steps[0]), steps[1..])
  }

  lemma DebtAccrueStep(m: Market, step: Step, accruals: nat)
    requires Inv(m) && DebtWithin(m, accruals)
    requires step.action.Accrue? && step.now != m.accrualBlock && Apply(m, step).Done?
    ensures DebtWithin(After(m, step), accruals + 1)
  {
    var m' := After(m, step);
    var factor := step.action.rate * (step.now - m.accrualBlock);
    GrowthOf(factor, m.borrowIndex);
    GrowthOf(factor, m.totalBorrows);
    assert m'.accountBorrows == m.accountBorrows;
    AccrualArithmetic(Total(IndexShares(m)), 1.0 + factor as real / ONE,
                      m.borrowIndex as real, m'.borrowIndex as real,
                      m.totalBorrows as real, m'.totalBorrows as real, accruals as real);
    assert IndexShares(m') == IndexShares(m);
  }

  lemma DebtBorrowerStep(m: Market, step: Step, accruals: nat)
    requires Inv(m) && DebtWithin(m, accruals)
    requires (step.action.Borrow? || step.action.Repay? || step.action.Heal?) && Apply(m, step).Done?
    ensures DebtWithin(After(m, step), accruals)
  {
    var a := step.action.borrower;
    var m' := After(m, step);
    BalanceIsFloor(m, a);
    RewriteBorrow(m, m', a, m'.accountBorrows[a].principal, accruals);
  }

  lemma DebtUntouchedStep(m: Market, step: Step)
    requires step.action.Accrue? && Apply(m, step).Done? ==> step.now == m.accrualBlock
    requires Apply(m, step).Done? ==> !step.action.Borrow? && !step.action.Repay? && !step.action.Heal?
    ensures var m' := After(m, step);
      m'.borrowIndex == m.borrowIndex && m'.totalBorrows == m.totalBorrows && m'.accountBorrows == m.accountBorrows
  {
  }

  lemma DebtStep(m: Market, step: Step, accruals: nat)
    requires Inv(m) && DebtWithin(m, accruals)
    ensures DebtWithin(After(m, step), accruals + Accruals1(m, step))
  {
    if Accruals1(m, step) == 1 {
      DebtAccrueStep(m, step, accruals);
    } else if Apply(m, step).Done? && (step.action.Borrow? || step.action.Repay? || step.action.Heal?) {
      DebtBorrowerStep(m, step, accruals);
    } else {
      DebtUntouchedStep(m, step);
      assert IndexShares(After(m, step)) == IndexShares(m);
    }
  }

  /// Over every run of any number of borrowers.
  lemma {:induction false} DebtRun(m: Market, steps: seq<Step>, accruals: nat)
    requires Inv(m) && DebtWithin(m, accruals)
    ensures Inv(Run(m, steps)) && DebtWithin(Run(m, steps), accruals + Accruals(m, steps))
    decreases |steps|
  {
    if steps != [] {
      StepKeeps(m, steps[0]);
      DebtStep(m, steps[0], accruals);
      DebtRun(After(m, steps[0]), steps[1..], accruals + Accruals1(m, steps[0]));
    }
  }

  lemma BalancesBelowShares(m: Market)
    requires Inv(m)
    ensures Total(Balances(m)) <= Times(m.borrowIndex as real, Total(IndexShares(m)))
  {
    var scaled := Scaled(IndexShares(m), m.borrowIndex as real);
    forall a
      ensures At(Balances(m), a) <= At(scaled, a)
    {
      if a in m.accountBorrows {
        BalanceIsFloor(m, a);
      }
    }
    TotalBelow(Balances(m), scaled);
    TotalScaled(IndexShares(m), m.borrowIndex as real);
  }

  /// One unit for each accrual so far and each time the index has multiplied its first value.
  ghost function Drift(index: real, accruals: real): real {
    accruals * (index / ONE)
  }

  lemma WithinDrift(shares: real, index: real, borrows: real, n: real)
    requires Within(shares, index, borrows, n)
    ensures Times(index, shares) <= borrows + Drift(index, n)
  {
    var drift := n * (index / ONE);
    assert drift * ONE == n * index;
    assert (index * shares) * ONE == shares * ONE * index;
    assert (borrows + drift) * ONE == ONE * borrows + n * index;
    RealMulCancel(index * shares, borrows + drift, ONE);
  }

  lemma OwedWithinDrift(m: Market, accruals: nat)
    requires Inv(m) && DebtWithin(m, accruals)
    ensures Total(Balances(m)) <= m.totalBorrows as real + Drift(m.borrowIndex as real, accruals as real)
  {
    BalancesBelowShares(m);
    WithinDrift(Total(IndexShares(m)), m.borrowIndex as real, m.totalBorrows as real, accruals as real);
  }

  lemma NewMarketOwesNothing(now: nat)
    ensures Inv(NewMarket(now)) && DebtWithin(NewMarket(now), 0)
  {
    NewMarketInv(now);
    assert IndexShares(NewMarket(now)) == map[];
  }

  /// Over every run, what all borrowers together owe exceeds totalBorrows by at most the drift.
  lemma OwedAtMostTotalBorrows(now: nat, steps: seq<Step>)
    ensures var m := Run(NewMarket(now), steps);
      && Inv(m) && DebtWithin(m, Accruals(NewMarket(now), steps))
      && Total(Balances(m))
           <= m.totalBorrows as real + Drift(m.borrowIndex as real, Accruals(NewMarket(now), steps) as real)
  {
    NewMarketOwesNothing(now);
    DebtRun(NewMarket(now), steps, 0);
    OwedWithinDrift(Run(NewMarket(now), steps), Accruals(NewMarket(now), steps));
  }

  // ---------- repaying in full ----------

  /// Offering at least the whole balance goes through exactly when what arrives of the balance is not
  /// above totalBorrows; otherwise the subtraction from totalBorrows underflows and the call reverts. It
  /// pays the borrow off exactly when the token keeps nothing.
  lemma RepayInFull(m: Market, now: nat, a: Account, amount: nat, fee: nat)
    requires Inv(m) && m.accrualBlock == now && Balance(m, a) <= amount
    ensures var arrived := Arrives(Balance(m, a), fee);
      RepayBorrowFresh(m, now, a, amount, fee).Done? <==> arrived <= m.totalBorrows
    ensures RepayBorrowFresh(m, now, a, amount, fee).Done? ==>
      var m', arrived := RepayBorrowFresh(m, now, a, amount, fee).value, Arrives(Balance(m, a), fee);
      && Balance(m', a) == Balance(m, a) - arrived
      && (Balance(m', a) == 0 <==> arrived == Balance(m, a))
      && m'.cash == m.cash + arrived && m'.totalBorrows == m.totalBorrows - arrived
      && forall b :: b != a ==> Balance(m', b) == Balance(m, b)
  {
    BalanceIsFloor(m, a);
    WrittenBalance(Balance(m, a) - Arrives(Balance(m, a), fee), m.borrowIndex);
  }

  /// A balance written at the current index reads back as itself.
  lemma WrittenBalance(balance: nat, index: nat)
    requires 0 < index
    ensures balance * index / index == balance
  {
    DivBounds(balance * index, index, balance);
    DivBounds(balance * index, index, balance + 1);
    assert (balance + 1) * index == balance * index + index;
  }

  /// Writing a borrow off needs the same: totalBorrows at least the balance.
  lemma HealInFull(m: Market, a: Account, amount: nat, fee: nat)
    requires Inv(m)
    ensures HealBorrow(m, a, amount, fee).Done?
        <==> Arrives(amount, fee) <= Balance(m, a) <= m.totalBorrows
    ensures HealBorrow(m, a, amount, fee).Done? ==>
      var m' := HealBorrow(m, a, amount, fee).value;
      && Balance(m', a) == 0
      && (m'.cash - m.cash) + (m'.badDebt - m.badDebt) == Balance(m, a)
      && m'.cash - m.cash == Arrives(amount, fee)
      && m.totalBorrows - m'.totalBorrows == Balance(m, a)
      && forall b :: b != a ==> Balance(m', b) == Balance(m, b)
  {
    BalanceIsFloor(m, a);
  }

  /// In a reachable market a borrower can repay in full whenever the others owe at least the drift.
  lemma OthersMakeRoom(now: nat, steps: seq<Step>, a: Account)
    requires var m := Run(NewMarket(now), steps);
      Drift(m.borrowIndex as real, Accruals(NewMarket(now), steps) as real)
        <= Total(Balances(m)) - At(Balances(m), a)
    ensures var m := Run(NewMarket(now), steps); Balance(m, a) <= m.totalBorrows
  {
    OwedAtMostTotalBorrows(now, steps);
    var m := Run(NewMarket(now), steps);
    assert At(Balances(m), a) == Balance(m, a) as real;
  }

  /// A market in which account 2 borrowed 1, at a given borrow index and slot.
  function Drifting(index: nat, now: nat): Market {
    Market(9, 1, 0, 0, 10, index, now, now, map[1 := 10], map[2 := BorrowSnapshot(1, EXP_SCALE)])
  }

  /// 100000 slots at the largest borrow rate of the deployed markets, 0.0005%, grow the index by half.
  const DRIFTING: AllowedSettings := Settings(EXP_SCALE, 0, 5_000_000_000_000, 1, 0, EXP_SCALE)
  const MINT_STEP := Step(DRIFTING, 0, Mint(1, 10, 0))
  const BORROW_STEP := Step(DRIFTING, 0, Borrow(2, 1))
  const ACCRUE_STEP1 := Step(DRIFTING, 100_000, Accrue(5_000_000_000_000))
  const ACCRUE_STEP2 := Step(DRIFTING, 200_000, Accrue(5_000_000_000_000))
  const DRIFTING_RUN: seq<Step> := [MINT_STEP] + ([BORROW_STEP] + ([ACCRUE_STEP1] + ([ACCRUE_STEP2] + [])))

  lemma RunFirst(m: Market, step: Step, rest: seq<Step>)
    ensures Run(m, [step] + rest) == Run(After(m, step), rest)
  {
    assert ([step] + rest)[1..] == rest;
  }

  lemma DriftingSetup()
    ensures After(After(NewMarket(0), MINT_STEP), BORROW_STEP) == Drifting(EXP_SCALE, 0)
  {
    assert DivTruncate(10, EXP_SCALE) == 10;
    var minted := Market(10, 0, 0, 0, 10, EXP_SCALE, 0, 0, map[1 := 10], map[]);
    assert MintFresh(DRIFTING, NewMarket(0), 0, 1, 10, 0) == Done(minted);
    assert BorrowFresh(minted, 0, 2, 1) == Done(Drifting(EXP_SCALE, 0));
  }

  lemma DriftingAccrual(index: nat, now: nat)
    requires index % 2 == 0
    ensures AccrueInterest(DRIFTING, Drifting(index, now), now + 100_000, 5_000_000_000_000)
         == Done(Drifting(index + index / 2, now + 100_000))
  {
    var factor := 500_000_000_000_000_000;
    assert MulTruncate(factor, 1) == 0 && MulTruncate(0, 0) == 0;
    assert MulTruncate(factor, index) == index / 2;
  }

  lemma AfterAccrual(m: Market, now: nat, rate: nat, m': Market)
    requires AccrueInterest(DRIFTING, m, now, rate) == Done(m')
    ensures After(m, Step(DRIFTING, now, Accrue(rate))) == m'
  {
  }

  lemma RunFour(m: Market, a: Step, b: Step, c: Step, d: Step, m2: Market, m3: Market, m4: Market)
    requires After(After(m, a), b) == m2 && After(m2, c) == m3 && After(m3, d) == m4
    ensures Run(m, [a] + ([b] + ([c] + ([d] + [])))) == m4
  {
    RunFirst(m, a, [b] + ([c] + ([d] + [])));
    RunFirst(After(m, a), b, [c] + ([d] + []));
    RunFirst(m2, c, [d] + []);
    RunFirst(m3, d, []);
  }

  lemma DriftingAccruals()
    ensures After(Drifting(EXP_SCALE, 0), ACCRUE_STEP1) == Drifting(1_500_000_000_000_000_000, 100_000)
    ensures After(Drifting(1_500_000_000_000_000_000, 100_000), ACCRUE_STEP2) == Drifting(2_250_000_000_000_000_000, 200_000)
  {
    DriftingAccrual(EXP_SCALE, 0);
    AfterAccrual(Drifting(EXP_SCALE, 0), 100_000, 5_000_000_000_000, Drifting(1_500_000_000_000_000_000, 100_000));
    DriftingAccrual(1_500_000_000_000_000_000, 100_000);
    AfterAccrual(Drifting(1_500_000_000_000_000_000, 100_000), 200_000, 5_000_000_000_000,
                 Drifting(2_250_000_000_000_000_000, 200_000));
  }

  lemma DriftingRun()
    ensures Run(NewMarket(0), DRIFTING_RUN) == Drifting(2_250_000_000_000_000_000, 200_000)
  {
    DriftingSetup();
    DriftingAccruals();
    RunFour(NewMarket(0), MINT_STEP, BORROW_STEP, ACCRUE_STEP1, ACCRUE_STEP2,
            Drifting(EXP_SCALE, 0), Drifting(1_500_000_000_000_000_000, 100_000),
            Drifting(2_250_000_000_000_000_000, 200_000));
  }

  lemma DriftedBalance()
    ensures BorrowBalanceStored(Drifting(2_250_000_000_000_000_000, 200_000), 2) == Done(2)
  {
  }

  /// A run after which the only borrower owes 2 while totalBorrows is 1: totalBorrows lost its interest
  /// to truncation twice, the index kept it, and repaying in full reverts.
  lemma FullRepaymentCanRevert()
    ensures var m := Run(NewMarket(0), DRIFTING_RUN);
      && Balance(m, 2) == 2 && m.totalBorrows == 1
      && RepayBorrowFresh(m, 200_000, 2, 2, 0) == Revert(Panic)
  {
    DriftingRun();
    DriftedBalance();
  }
}

/** One run of a market and its rewards, from deployment. Accounts 2 and 3 borrow 10 each and earn one reward per
    block between them. After 20 blocks account 3 is healed without a repayment and account 2 claims: account 2
    receives all 20, twice its part of the blocks, and account 3 nothing. */
module BorrowerExamples {
  import opened FixedPoint
  import opened Totals
  import opened Outcomes
  import opened Ledger
  import opened ExchangeRate
  import opened Borrowers
  import opened Rewards
  import opened SupplierRewards
  import opened BorrowerRewards
  import opened BorrowerBlocks
  import opened UnhookedHeals

  const CALM: AllowedSettings := Settings(EXP_SCALE, 0, 0, 100, 0, EXP_SCALE)

  const DEPLOYED: BorrowWorld :=
    BorrowWorld(0, NewMarket(0), 0, RewardState(INITIAL_INDEX, 0, 0), 0, map[], map[])

  const MINT: BorrowEvent := Call(CALM, Mint(1, 100, 0))
  const BORROW2: BorrowEvent := Call(CALM, Borrow(2, 10))
  const BORROW3: BorrowEvent := Call(CALM, Borrow(3, 10))
  const ACCRUE: BorrowEvent := Call(CALM, Accrue(0))
  const HEAL3: BorrowEvent := Call(CALM, Heal(3, 0, 0))

  const BEFORE: seq<BorrowEvent> := [MINT] + ([BORROW2] + ([BORROW3] + ([SetBorrowSpeed(1)] + [])))
  const AFTERWARDS: seq<BorrowEvent> := [ACCRUE] + ([HEAL3] + ([ClaimBorrow(2)] + []))
  const HEALED_RUN: seq<BorrowEvent> := BEFORE + ([Advance(20)] + AFTERWARDS)

  // ---------- the market ----------

  const SUPPLIED: Market := Market(100, 0, 0, 0, 100, EXP_SCALE, 0, 0, map[1 := 100], map[])
  const BORROWED2: Market :=
    Market(90, 10, 0, 0, 100, EXP_SCALE, 0, 0, map[1 := 100], map[2 := BorrowSnapshot(10, EXP_SCALE)])
  const BORROWED3: Market := Market(80, 20, 0, 0, 100, EXP_SCALE, 0, 0, map[1 := 100],
    map[2 := BorrowSnapshot(10, EXP_SCALE), 3 := BorrowSnapshot(10, EXP_SCALE)])
  const ACCRUED: Market := BORROWED3.(accrualBlock := 20)
  const HEALED: Market := Market(80, 10, 10, 0, 100, EXP_SCALE, 20, 0, map[1 := 100],
    map[2 := BorrowSnapshot(10, EXP_SCALE), 3 := BorrowSnapshot(0, EXP_SCALE)])

  lemma MintCall()
    ensures Apply(NewMarket(0), Step(CALM, 0, Mint(1, 100, 0))) == Done(SUPPLIED)
  {
    assert DivTruncate(100, EXP_SCALE) == 100;
    assert ExchangeRateStored(CALM, NewMarket(0)) == Done(EXP_SCALE);
  }

  lemma BorrowCalls()
    ensures Apply(SUPPLIED, Step(CALM, 0, Borrow(2, 10))) == Done(BORROWED2)
    ensures Apply(BORROWED2, Step(CALM, 0, Borrow(3, 10))) == Done(BORROWED3)
  {
    assert BorrowBalanceStored(SUPPLIED, 2) == Done(0);
    assert BorrowBalanceStored(BORROWED2, 3) == Done(0);
    assert BORROWED2.accountBorrows[3 := BorrowSnapshot(10, EXP_SCALE)] == BORROWED3.accountBorrows;
  }

  lemma AccruesNothing(m: Market, now: nat)
    requires m.accrualBlock < now && m.reduceReservesBlock <= now < m.reduceReservesBlock + 100
    ensures AccrueInterest(CALM, m, now, 0) == Done(m.(accrualBlock := now))
  {
    var factor := 0 * (now - m.accrualBlock);
    assert factor == 0 && MulTruncate(0, m.totalBorrows) == 0 && MulTruncate(0, m.borrowIndex) == 0;
    assert MulTruncate(0, 0) == 0;
  }

  lemma AccrueCall()
    ensures Apply(BORROWED3, Step(CALM, 20, Accrue(0))) == Done(ACCRUED)
  {
    AccruesNothing(BORROWED3, 20);
  }

  lemma HealCall()
    ensures Apply(ACCRUED, Step(CALM, 20, Heal(3, 0, 0))) == Done(HEALED)
  {
    assert 10 * EXP_SCALE / EXP_SCALE == 10;
    assert BorrowBalanceStored(ACCRUED, 3) == Done(10);
    assert ACCRUED.accountBorrows[3 := BorrowSnapshot(0, EXP_SCALE)] == HEALED.accountBorrows;
  }

  lemma BorrowedTen(m: LiveMarket, u: User)
    requires m.borrowIndex == EXP_SCALE && u in m.accountBorrows
    requires m.accountBorrows[u] == BorrowSnapshot(10, EXP_SCALE)
    ensures Units(m, u) == 10 && Share(m, u) == 10.0
  {
    assert 10 * EXP_SCALE / EXP_SCALE == 10;
    assert At(IndexShares(m), u) == 10.0 / ONE;
    RealDivBounds(10.0, ONE);
  }

  lemma TotalsOf(m: LiveMarket, borrows: nat)
    requires m.borrowIndex == EXP_SCALE && m.totalBorrows == borrows
    ensures NormalisedTotal(m) == borrows
  {
    DivBounds(borrows * EXP_SCALE, EXP_SCALE, borrows);
    DivBounds(borrows * EXP_SCALE, EXP_SCALE, borrows + 1);
  }

  // ---------- the steps ----------

  lemma CallWithoutHook(w: BorrowWorld, action: Action, m: LiveMarket)
    requires Apply(w.market, Step(CALM, w.now, action)) == Done(m) && HookFor(action) == {}
    ensures BorrowNext(w, Call(CALM, action)) ==
      w.(market := m, accruals := w.accruals + Accruals1(w.market, Step(CALM, w.now, action)))
  {
  }

  /// A first borrow while nothing is pending and the index has not moved.
  lemma FirstBorrow(w: BorrowWorld, u: User, m: LiveMarket)
    requires Apply(w.market, Step(CALM, w.now, Borrow(u, 10))) == Done(m)
    requires w.state == RewardState(INITIAL_INDEX, w.now, 0) && Get(w.borrowerIndex, u) == 0 == Get(w.received, u)
    ensures BorrowNext(w, Call(CALM, Borrow(u, 10))) ==
      w.(market := m, borrowerIndex := w.borrowerIndex[u := INITIAL_INDEX], received := w.received[u := 0])
  {
    assert IndexUpdated(w) == w;
    assert Accrual(Units(w.market, u), 0) == 0;
    assert BorrowerSettled(w, u) ==
      w.(borrowerIndex := w.borrowerIndex[u := INITIAL_INDEX], received := w.received[u := 0]);
  }

  lemma FirstSpeed(w: BorrowWorld)
    requires w.state == RewardState(INITIAL_INDEX, w.now, 0) && w.speed == 0
    ensures BorrowNext(w, SetBorrowSpeed(1)) == w.(speed := 1)
  {
  }

  const BOTH_INDEXES: map<User, nat> := map[2 := INITIAL_INDEX, 3 := INITIAL_INDEX]
  const BOTH_RECEIVED: map<User, nat> := map[2 := 0, 3 := 0]

  ghost predicate Earning(w: BorrowWorld) {
    && w.speed == 1 && w.state == RewardState(INITIAL_INDEX, 0, 0)
    && w.borrowerIndex == BOTH_INDEXES && w.received == BOTH_RECEIVED
  }

  lemma RunCons(w: BorrowWorld, e: BorrowEvent, rest: seq<BorrowEvent>)
    ensures BorrowRun(w, [e] + rest) == BorrowRun(BorrowNext(w, e), rest)
  {
    assert ([e] + rest)[1..] == rest;
  }

  lemma RunOfThree(w: BorrowWorld, a: BorrowEvent, b: BorrowEvent, c: BorrowEvent)
    ensures BorrowRun(w, [a] + ([b] + ([c] + []))) == BorrowNext(BorrowNext(BorrowNext(w, a), b), c)
  {
    RunCons(w, a, [b] + ([c] + []));
    RunCons(BorrowNext(w, a), b, [c] + []);
    RunCons(BorrowNext(BorrowNext(w, a), b), c, []);
  }

  lemma MintsTo(w: BorrowWorld)
    requires w.now == 0 && w.market == NewMarket(0)
    ensures BorrowNext(w, MINT) == w.(market := SUPPLIED)
  {
    MintCall();
    CallWithoutHook(w, Mint(1, 100, 0), SUPPLIED);
  }

  lemma BorrowsTo2(w: BorrowWorld)
    requires w.now == 0 && w.market == SUPPLIED && w.state == RewardState(INITIAL_INDEX, 0, 0)
    requires w.borrowerIndex == map[] && w.received == map[]
    ensures BorrowNext(w, BORROW2) ==
      w.(market := BORROWED2, borrowerIndex := map[2 := INITIAL_INDEX], received := map[2 := 0])
  {
    BorrowCalls();
    FirstBorrow(w, 2, BORROWED2);
  }

  lemma BorrowsTo3(w: BorrowWorld)
    requires w.now == 0 && w.market == BORROWED2 && w.state == RewardState(INITIAL_INDEX, 0, 0)
    requires w.borrowerIndex == map[2 := INITIAL_INDEX] && w.received == map[2 := 0]
    ensures BorrowNext(w, BORROW3) == w.(market := BORROWED3, borrowerIndex := BOTH_INDEXES, received := BOTH_RECEIVED)
  {
    BorrowCalls();
    FirstBorrow(w, 3, BORROWED3);
    assert w.borrowerIndex[3 := INITIAL_INDEX] == BOTH_INDEXES && w.received[3 := 0] == BOTH_RECEIVED;
  }

  lemma RunBefore(w: BorrowWorld)
    requires w.now == 0 && w.market == NewMarket(0) && w.speed == 0 && w.state == RewardState(INITIAL_INDEX, 0, 0)
    requires w.borrowerIndex == map[] && w.received == map[]
    ensures var w' := BorrowRun(w, BEFORE); Earning(w') && w'.now == 0 && w'.market == BORROWED3
  {
    MintsTo(w);
    var w1 := BorrowNext(w, MINT);
    BorrowsTo2(w1);
    var w2 := BorrowNext(w1, BORROW2);
    BorrowsTo3(w2);
    var w3 := BorrowNext(w2, BORROW3);
    FirstSpeed(w3);
    RunCons(w, MINT, [BORROW2] + ([BORROW3] + ([SetBorrowSpeed(1)] + [])));
    RunOfThree(w1, BORROW2, BORROW3, SetBorrowSpeed(1));
  }

  /// A claim of the first 20 blocks.
  lemma ClaimAt(w: BorrowWorld, u: User, total: nat, amount: nat)
    requires w.now == 20 && w.speed == 1 && w.state == RewardState(INITIAL_INDEX, 0, 0)
    requires Get(w.borrowerIndex, u) == INITIAL_INDEX && Get(w.received, u) == 0 && Units(w.market, u) == 10
    requires NormalisedTotal(w.market) == total && (total == 20 || total == 10) && total * amount == 200
    ensures Get(BorrowNext(w, ClaimBorrow(u)).received, u) == amount
    ensures Claimable(w, u) == amount
    ensures forall v | v != u :: Get(BorrowNext(w, ClaimBorrow(u)).received, v) == Get(w.received, v)
  {
    assert IndexGrowth(20, 1, 20) == DOUBLE_SCALE && IndexGrowth(20, 1, 10) == 2 * DOUBLE_SCALE;
    var growth := if total == 20 then DOUBLE_SCALE else 2 * DOUBLE_SCALE;
    assert IndexUpdated(w) == w.(state := RewardState(INITIAL_INDEX + growth, 20, 0));
    assert Accrual(10, DOUBLE_SCALE) == 10 && Accrual(10, 2 * DOUBLE_SCALE) == 20;
  }

  lemma AccrualCounts(w: BorrowWorld, rate: nat)
    requires w.now != w.market.accrualBlock && Apply(w.market, Step(CALM, w.now, Accrue(rate))).Done?
    ensures Accruals1(w.market, Step(CALM, w.now, Accrue(rate))) == 1 == AccrualsOf(w, Call(CALM, Accrue(rate)))
  {
  }

  lemma AccruesTo(w: BorrowWorld)
    requires w.now == 20 && w.market == BORROWED3
    ensures BorrowNext(w, ACCRUE) == w.(market := ACCRUED, accruals := w.accruals + 1) && AccrualsOf(w, ACCRUE) == 1
  {
    AccrueCall();
    AccrualCounts(w, 0);
    CallWithoutHook(w, Accrue(0), ACCRUED);
  }

  lemma HealsTo(w: BorrowWorld)
    requires w.now == 20 && w.market == ACCRUED
    ensures BorrowNext(w, HEAL3) == w.(market := HEALED) && UnhookedHeal(w, HEAL3)
  {
    HealCall();
    CallWithoutHook(w, Heal(3, 0, 0), HEALED);
  }

  lemma ClaimBeforeHeal(w: BorrowWorld)
    requires Earning(w) && w.now == 20 && w.market == ACCRUED
    ensures Claimable(w, 3) == 10
  {
    TotalsOf(ACCRUED, 20);
    BorrowedTen(ACCRUED, 3);
    ClaimAt(w, 3, 20, 10);
  }

  lemma ClaimAfterHeal(w: BorrowWorld)
    requires Earning(w) && w.now == 20 && w.market == HEALED
    ensures Get(BorrowNext(w, ClaimBorrow(2)).received, 2) == 20
    ensures Get(BorrowNext(w, ClaimBorrow(2)).received, 3) == 0
  {
    TotalsOf(HEALED, 10);
    BorrowedTen(HEALED, 2);
    ClaimAt(w, 2, 10, 20);
  }

  lemma OneAccrualAhead(w: BorrowWorld, w1: BorrowWorld, w2: BorrowWorld)
    requires w1 == BorrowNext(w, ACCRUE) && AccrualsOf(w, ACCRUE) == 1
    requires w2 == BorrowNext(w1, HEAL3) && UnhookedHeal(w1, HEAL3)
    ensures AccrualsAhead(w, AFTERWARDS) == 1
  {
    AheadOf(w, ACCRUE, [HEAL3] + ([ClaimBorrow(2)] + []));
    AheadOf(w1, HEAL3, [ClaimBorrow(2)] + []);
    AheadOf(w2, ClaimBorrow(2), []);
  }

  lemma RunAfter(w: BorrowWorld)
    requires Earning(w) && w.now == 20 && w.market == BORROWED3
    ensures Get(BorrowRun(w, AFTERWARDS).received, 2) == 20 && Get(BorrowRun(w, AFTERWARDS).received, 3) == 0
    ensures AccrualsAhead(w, AFTERWARDS) == 1
    ensures UnhookedHeal(BorrowNext(w, ACCRUE), HEAL3) && Claimable(BorrowNext(w, ACCRUE), 3) == 10
  {
    AccruesTo(w);
    var w1 := BorrowNext(w, ACCRUE);
    HealsTo(w1);
    var w2 := BorrowNext(w1, HEAL3);
    ClaimBeforeHeal(w1);
    ClaimAfterHeal(w2);
    RunOfThree(w, ACCRUE, HEAL3, ClaimBorrow(2));
    OneAccrualAhead(w, w1, w2);
  }

  // ---------- what the blocks give ----------

  predicate NoBlocks(events: seq<BorrowEvent>) {
    forall i :: 0 <= i < |events| ==> !events[i].Advance?
  }

  lemma {:induction false} NoBlocksNothing(w: BorrowWorld, events: seq<BorrowEvent>, u: User)
    requires NoBlocks(events)
    ensures PerBlock(w, events, u) == 0.0 == Most(w, events, u)
    decreases |events|
  {
    if |events| > 0 {
      NoBlocksNothing(BorrowNext(w, events[0]), events[1..], u);
    }
  }

  lemma {:induction false} SkipQuiet(w: BorrowWorld, a: seq<BorrowEvent>, b: seq<BorrowEvent>, u: User)
    requires NoBlocks(a)
    ensures BorrowRun(w, a + b) == BorrowRun(BorrowRun(w, a), b)
    ensures PerBlock(w, a + b, u) == PerBlock(BorrowRun(w, a), b, u)
    ensures Most(w, a + b, u) == Most(BorrowRun(w, a), b, u)
    decreases |a|
  {
    if |a| == 0 {
      assert a + b == b;
    } else {
      assert (a + b)[0] == a[0] && (a + b)[1..] == a[1..] + b;
      SkipQuiet(BorrowNext(w, a[0]), a[1..], b, u);
    }
  }

  lemma PartIs(share: real, amount: real, total: real, part: real)
    requires 0.0 < total && share * amount == part * total
    ensures Part(share, amount, total) == part
  {
    RealDivBounds(amount, total);
    assert share * (amount / total) * total == share * (amount / total * total);
    RealMulCancel(share * (amount / total), part, total);
    RealMulCancel(part, share * (amount / total), total);
  }

  /// Twenty blocks of one reward, of which a user with a share of 10 gets 10 out of 20, or 10.53 out of 19.
  lemma TwentyBlocks(w: BorrowWorld, rest: seq<BorrowEvent>, u: User)
    requires Earning(w) && w.now == 0 && w.market == BORROWED3
    requires (u == 2 || u == 3) && NoBlocks(rest) && AccrualsAhead(BorrowNext(w, Advance(20)), rest) == 1
    ensures PerBlock(w, [Advance(20)] + rest, u) == Times(DOUBLE, 10.0)
    ensures Most(w, [Advance(20)] + rest, u) <= Times(DOUBLE, 11.0)
  {
    var e := Advance(20);
    assert ([e] + rest)[1..] == rest;
    NoBlocksNothing(BorrowNext(w, e), rest, u);
    AheadOf(w, e, rest);
    TotalsOf(w.market, 20);
    BorrowedTen(w.market, u);
    AmountIs(w, 20);
    var amount := Amount(w, 20);
    PartIs(10.0, amount, 20.0, Times(DOUBLE, 10.0));
    PartIs(10.0, amount, 19.0, amount * 10.0 / 19.0);
  }

  lemma DeployedIsInitial()
    ensures BorrowInitial(DEPLOYED)
  {
    NewMarketOwesNothing(0);
  }

  /// After 20 blocks account 2 has received 20, though its part of the blocks is 10, and at most 11 with the slack
  /// that accruals call for; account 3 has received nothing, though its part is 10 too and a claim just before the
  /// heal would have paid them.
  lemma HealTakesFromOneGivesToAnother()
    ensures var w' := BorrowRun(DEPLOYED, HEALED_RUN);
      && BorrowInitial(DEPLOYED)
      && Get(w'.received, 2) == 20 && Get(w'.received, 3) == 0
      && PerBlock(DEPLOYED, HEALED_RUN, 2) == Times(DOUBLE, 10.0) == PerBlock(DEPLOYED, HEALED_RUN, 3)
      && Most(DEPLOYED, HEALED_RUN, 2) <= Times(DOUBLE, 11.0)
    ensures var healing := BorrowRun(DEPLOYED, BEFORE + ([Advance(20)] + ([ACCRUE] + [])));
      UnhookedHeal(healing, HEAL3) && Claimable(healing, 3) == 10
  {
    DeployedIsInitial();
    RunBefore(DEPLOYED);
    EarningRun(DEPLOYED, BorrowRun(DEPLOYED, BEFORE));
  }

  lemma BlocksOfRun(start: BorrowWorld, w: BorrowWorld, u: User)
    requires w == BorrowRun(start, BEFORE) && Earning(w) && w.now == 0 && w.market == BORROWED3 && (u == 2 || u == 3)
    requires AccrualsAhead(BorrowNext(w, Advance(20)), AFTERWARDS) == 1
    ensures PerBlock(start, HEALED_RUN, u) == Times(DOUBLE, 10.0) && Most(start, HEALED_RUN, u) <= Times(DOUBLE, 11.0)
  {
    SkipQuiet(start, BEFORE, [Advance(20)] + AFTERWARDS, u);
    TwentyBlocks(w, AFTERWARDS, u);
  }

  lemma WholeRun(start: BorrowWorld, w: BorrowWorld, rest: seq<BorrowEvent>)
    requires w == BorrowRun(start, BEFORE)
    ensures BorrowRun(start, BEFORE + ([Advance(20)] + rest)) == BorrowRun(BorrowNext(w, Advance(20)), rest)
  {
    SkipQuiet(start, BEFORE, [Advance(20)] + rest, 2);
    RunCons(w, Advance(20), rest);
  }

  lemma EarningRun(start: BorrowWorld, w: BorrowWorld)
    requires w == BorrowRun(start, BEFORE) && Earning(w) && w.now == 0 && w.market == BORROWED3
    ensures var w' := BorrowRun(start, HEALED_RUN);
      && Get(w'.received, 2) == 20 && Get(w'.received, 3) == 0
      && PerBlock(start, HEALED_RUN, 2) == Times(DOUBLE, 10.0) == PerBlock(start, HEALED_RUN, 3)
      && Most(start, HEALED_RUN, 2) <= Times(DOUBLE, 11.0)
    ensures var healing := BorrowRun(start, BEFORE + ([Advance(20)] + ([ACCRUE] + [])));
      UnhookedHeal(healing, HEAL3) && Claimable(healing, 3) == 10
  {
    RunAfter(BorrowNext(w, Advance(20)));
    WholeRun(start, w, AFTERWARDS);
    WholeRun(start, w, [ACCRUE] + []);
    RunCons(BorrowNext(w, Advance(20)), ACCRUE, []);
    BlocksOfRun(start, w, 2);
    BlocksOfRun(start, w, 3);
  }
}

/** A run of a rewards distributor from deployment that cannot pay what it owes: it holds all that it released, 10
    rewards, but the borrower they were released for has accrued 20. */
module RewardExamples {
  import opened FixedPoint
  import opened Totals
  import opened Outcomes
  import opened Ledger
  import opened Borrowers
  import opened Rewards
  import opened BorrowerRewards
  import opened Distributor
  import opened RewardRuns
  import opened RewardSteps
  import opened RewardClaims

  /// A market in which account 2 borrowed 2, at a given borrow index and slot: totalBorrows is still 2.
  function Aged(index: nat, now: nat): Market {
    Market(8, 2, 0, 0, 10, index, now, now, map[1 := 10], map[2 := BorrowSnapshot(2, EXP_SCALE)])
  }

  const RATE: nat := 5_000_000_000_000
  const PAST: seq<Step> :=
    [Step(DRIFTING, 0, Mint(1, 10, 0))] + ([Step(DRIFTING, 0, Ledger.Borrow(2, 2))]
    + ([Step(DRIFTING, 50_000, Accrue(RATE))] + ([Step(DRIFTING, 90_000, Accrue(RATE))] + [])))

  const OLD_MARKET: Market := Aged(1_500_000_000_000_000_000, 90_000)

  lemma Borrows()
    ensures Ledger.After(Ledger.After(NewMarket(0), Step(DRIFTING, 0, Mint(1, 10, 0))), Step(DRIFTING, 0, Ledger.Borrow(2, 2)))
         == Aged(EXP_SCALE, 0)
  {
    assert DivTruncate(10, EXP_SCALE) == 10;
    var minted := Market(10, 0, 0, 0, 10, EXP_SCALE, 0, 0, map[1 := 10], map[]);
    assert MintFresh(DRIFTING, NewMarket(0), 0, 1, 10, 0) == Done(minted);
    assert BorrowFresh(minted, 0, 2, 2) == Done(Aged(EXP_SCALE, 0));
  }

  /// Some slots at the largest rate, on so little that the interest truncates to nothing.
  lemma Ages(index: nat, now: nat, slots: nat, later: nat)
    requires 0 < slots && later == MulTruncate(RATE * slots, index) + index && RATE * slots * 2 < EXP_SCALE
    ensures AccrueInterest(DRIFTING, Aged(index, now), now + slots, RATE) == Done(Aged(later, now + slots))
  {
    var m := Aged(index, now);
    var factor := RATE * (now + slots - m.accrualBlock);
    assert factor == RATE * slots;
    assert MulTruncate(factor, 2) == 0 && MulTruncate(0, 0) == 0;
    assert BookInterest(DRIFTING, m, now + slots, RATE) == m.(accrualBlock := now + slots, borrowIndex := later);
  }

  lemma AccrueStep(m: Market, now: nat, m': Market)
    requires AccrueInterest(DRIFTING, m, now, RATE) == Done(m') && now != m.accrualBlock
    ensures Ledger.After(m, Step(DRIFTING, now, Accrue(RATE))) == m' && Accruals1(m, Step(DRIFTING, now, Accrue(RATE))) == 1
  {
  }

  lemma AccrualsFirst(m: Market, step: Step, rest: seq<Step>)
    ensures Accruals(m, [step] + rest) == Accruals1(m, step) + Accruals(Ledger.After(m, step), rest)
  {
    assert ([step] + rest)[1..] == rest;
  }

  lemma Growths()
    ensures MulTruncate(RATE * 50_000, EXP_SCALE) + EXP_SCALE == 1_250_000_000_000_000_000
    ensures MulTruncate(RATE * 40_000, 1_250_000_000_000_000_000) + 1_250_000_000_000_000_000 == 1_500_000_000_000_000_000
    ensures RATE * 50_000 * 2 < EXP_SCALE && RATE * 40_000 * 2 < EXP_SCALE
  {
  }

  /// Two steps that are no accruals and two that are, one after the other.
  lemma FourSteps(m: Market, a: Step, b: Step, c: Step, d: Step, m2: Market, m3: Market, m4: Market)
    requires Ledger.After(Ledger.After(m, a), b) == m2 && Ledger.After(m2, c) == m3 && Ledger.After(m3, d) == m4
    requires Accruals1(m, a) == Accruals1(Ledger.After(m, a), b) == 0 && Accruals1(m2, c) == Accruals1(m3, d) == 1
    ensures Ledger.Run(m, [a] + ([b] + ([c] + ([d] + [])))) == m4
    ensures Accruals(m, [a] + ([b] + ([c] + ([d] + [])))) == 2
  {
    RunFour(m, a, b, c, d, m2, m3, m4);
    AccrualsFirst(m, a, [b] + ([c] + ([d] + [])));
    AccrualsFirst(Ledger.After(m, a), b, [c] + ([d] + []));
    AccrualsFirst(m2, c, [d] + []);
    AccrualsFirst(m3, d, []);
  }

  /// The borrow, and two such accruals after it.
  lemma BorrowsAndAges(one: nat, two: nat, three: nat, slots: nat, further: nat)
    requires one == EXP_SCALE
    requires 0 < slots && two == MulTruncate(RATE * slots, one) + one && RATE * slots * 2 < EXP_SCALE
    requires 0 < further && three == MulTruncate(RATE * further, two) + two && RATE * further * 2 < EXP_SCALE
    ensures var past := [Step(DRIFTING, 0, Mint(1, 10, 0))] + ([Step(DRIFTING, 0, Ledger.Borrow(2, 2))]
      + ([Step(DRIFTING, slots, Accrue(RATE))] + ([Step(DRIFTING, slots + further, Accrue(RATE))] + [])));
      Ledger.Run(NewMarket(0), past) == Aged(three, slots + further) && Accruals(NewMarket(0), past) == 2
  {
    var m2, m3, m4 := Aged(one, 0), Aged(two, slots), Aged(three, slots + further);
    Borrows();
    Ages(one, 0, slots, two);
    Ages(two, slots, further, three);
    AccrueStep(m2, slots, m3);
    AccrueStep(m3, slots + further, m4);
    FourSteps(NewMarket(0), Step(DRIFTING, 0, Mint(1, 10, 0)), Step(DRIFTING, 0, Ledger.Borrow(2, 2)),
      Step(DRIFTING, slots, Accrue(RATE)), Step(DRIFTING, slots + further, Accrue(RATE)), m2, m3, m4);
  }

  lemma ThePast()
    ensures Ledger.Run(NewMarket(0), PAST) == OLD_MARKET && Accruals(NewMarket(0), PAST) == 2
  {
    Growths();
    BorrowsAndAges(EXP_SCALE, 1_250_000_000_000_000_000, 1_500_000_000_000_000_000, 50_000, 40_000);
  }

  lemma OldUnits()
    ensures Units(OLD_MARKET, 2) == 2 && NormalisedTotal(OLD_MARKET) == 1
  {
    assert BorrowBalanceStored(OLD_MARKET, 2) == Done(3);
    assert 3 * EXP_SCALE / 1_500_000_000_000_000_000 == 2 && 2 * EXP_SCALE / 1_500_000_000_000_000_000 == 1;
  }

  // ---------- the run ----------

  const RUN: seq<RewardRuns.Event> :=
    [Support(1, PAST)] + ([SetSpeeds(1, 0, 1)] + ([Fund(10)] + ([RewardRuns.Advance(10)] + [])))

  lemma RunCons(w: World, e: RewardRuns.Event, rest: seq<RewardRuns.Event>)
    ensures RewardRuns.Run(w, [e] + rest) == RewardRuns.Run(RewardRuns.Next(w, e), rest)
  {
    assert ([e] + rest)[1..] == rest;
  }

  const FRESH: RewardState := RewardState(INITIAL_INDEX, 90_000, 0)

  /// The market is added, and nothing has happened to its rewards yet.
  ghost predicate Added(w: World) {
    && w.pool == map[1 := OLD_MARKET] && Get(w.accruals, 1) == 2
    && w.books.supply.states == map[1 := FRESH] && w.books.borrow.states == map[1 := FRESH]
    && w.books.supply.indices == map[] && w.books.borrow.indices == map[]
    && w.books.accrued == map[] && w.paid == map[] && w.released == 0 && w.excess == 0
    && Get(w.books.supply.speeds, 1) == 0
  }

  lemma Supports(w: World)
    requires w == Deployed(90_000)
    ensures var w' := RewardRuns.Next(w, Support(1, PAST));
      Added(w') && w'.now == 90_000 && Get(w'.books.borrow.speeds, 1) == 0 && w'.books.held == 0
  {
    ThePast();
    PastIsLive(PAST);
    assert Started(RewardState(0, 0, 0), 90_000) == FRESH;
  }

  lemma Speeds(w: World)
    requires Added(w) && w.now == 90_000 && Get(w.books.borrow.speeds, 1) == 0
    ensures var w' := RewardRuns.Next(w, SetSpeeds(1, 0, 1));
      Added(w') && w'.now == 90_000 && Get(w'.books.borrow.speeds, 1) == 1 && w'.books.held == w.books.held
  {
    assert w.books.borrow.states[1 := FRESH] == w.books.borrow.states;
  }

  lemma FundsAndWaits(w: World)
    requires Added(w) && w.now == 90_000 && Get(w.books.borrow.speeds, 1) == 1 && w.books.held == 0
    ensures var w' := RewardRuns.Next(RewardRuns.Next(w, Fund(10)), RewardRuns.Advance(10));
      Added(w') && w'.now == 90_010 && Get(w'.books.borrow.speeds, 1) == 1 && w'.books.held == 10
  {
  }

  lemma WholeRun()
    ensures var w := RewardRuns.Run(Deployed(90_000), RUN);
      Added(w) && w.now == 90_010 && Get(w.books.borrow.speeds, 1) == 1 && w.books.held == 10
  {
    var w0 := Deployed(90_000);
    var w1 := RewardRuns.Next(w0, Support(1, PAST));
    var w2 := RewardRuns.Next(w1, SetSpeeds(1, 0, 1));
    var w3 := RewardRuns.Next(w2, Fund(10));
    Supports(w0);
    Speeds(w1);
    FundsAndWaits(w2);
    RunCons(w0, Support(1, PAST), [SetSpeeds(1, 0, 1)] + ([Fund(10)] + ([RewardRuns.Advance(10)] + [])));
    RunCons(w1, SetSpeeds(1, 0, 1), [Fund(10)] + ([RewardRuns.Advance(10)] + []));
    RunCons(w2, Fund(10), [RewardRuns.Advance(10)] + []);
    RunCons(w3, RewardRuns.Advance(10), []);
  }

  // ---------- the claim ----------

  lemma BorrowUpdate(w: World) returns (w1: World)
    requires Added(w) && w.now == 90_010 && Get(w.books.borrow.speeds, 1) == 1
    ensures w1 == Update(w, Borrowing, 1)
    ensures w1.books.borrow.State(1) == RewardState(INITIAL_INDEX + 10 * DOUBLE_SCALE, 90_010, 0)
    ensures w1.books.borrow.indices == map[] && w1.books.supply == w.books.supply && w1.released == 10
  {
    w1 := Update(w, Borrowing, 1);
    OldUnits();
    assert IndexGrowth(10, 1, 1) == 10 * DOUBLE_SCALE;
    assert w.books.borrow.State(1) == FRESH;
  }

  lemma BorrowerSettles(w: World) returns (w2: World)
    requires 1 in w.pool && w.pool[1] == OLD_MARKET && w.books.borrow.indices == map[] && w.books.accrued == map[]
    requires w.books.borrow.State(1).index == INITIAL_INDEX + 10 * DOUBLE_SCALE
    ensures w2 == Settle(w, Borrowing, 1, 2) && Get(w2.books.accrued, 2) == 20 && w2.books.supply == w.books.supply
  {
    w2 := Settle(w, Borrowing, 1, 2);
    OldUnits();
    assert Accrual(2, 10 * DOUBLE_SCALE) == 20;
  }

  lemma SupplierSettles(w: World) returns (w4: World)
    requires 1 in w.pool && w.pool[1] == OLD_MARKET && w.now == 90_010 && Get(w.books.accrued, 2) == 20
    requires w.books.supply.states == map[1 := FRESH] && w.books.supply.indices == map[] && Get(w.books.supply.speeds, 1) == 0
    ensures w4 == Settle(Update(w, Suppliers, 1), Suppliers, 1, 2)
    ensures Get(w4.books.accrued, 2) == 20 && w4.released == w.released
  {
    var w3 := Update(w, Suppliers, 1);
    assert w.books.supply.State(1) == FRESH;
    assert w3.books.supply.State(1).index == INITIAL_INDEX;
    assert Accrual(0, 0) == 0;
    w4 := Settle(w3, Suppliers, 1, 2);
  }

  lemma ClaimSettles(w: World)
    requires Added(w) && w.now == 90_010 && Get(w.books.borrow.speeds, 1) == 1
    ensures 1 in w.pool
    ensures var settled := SettleAll(w, [1], 2); Get(settled.books.accrued, 2) == 20 && settled.released == 10
  {
    var w1 := BorrowUpdate(w);
    var w2 := BorrowerSettles(w1);
    var w4 := SupplierSettles(w2);
    assert w4 == SettleBoth(w, 1, 2);
    assert [1][1..] == [];
    assert SettleAll(w4, [], 2) == w4;
  }

  lemma AtLeastOne(w: World, u: User)
    ensures Get(w.books.accrued, u) as real <= Received(w)
  {
    ReceivedParts(w, u);
    TotalNonNegative(Reals(w.paid));
  }

  /// After ten blocks of one reward for the only borrower, the distributor holds the ten it released. The borrower
  /// claims, and gets nothing: two units of balance have accrued ten each, while the total they were released for
  /// was one unit. So all users together have received more than was released.
  lemma ReleasedIsNotEnough()
    ensures var w := RewardRuns.Run(Deployed(90_000), RUN);
      && 1 in w.pool
      && var settled, w' := SettleAll(w, [1], 2), RewardRuns.Next(w, RewardRuns.Event.Claim(2, [1]));
         && settled.released == 10 == w.books.held && Get(settled.books.accrued, 2) == 20
         && settled.released as real < Received(settled)
         && Get(w'.books.accrued, 2) == 20 && w'.paid == w.paid == map[]
  {
    var w := RewardRuns.Run(Deployed(90_000), RUN);
    WholeRun();
    ClaimSettles(w);
    AtLeastOne(SettleAll(w, [1], 2), 2);
    GrantOutcome(SettleAll(w, [1], 2), 2);
  }
}

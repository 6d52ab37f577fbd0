/** Borrower rewards against a distributor that in every rewarded block splits the speed by share of that block's
    normalised total. The contract splits all blocks since the last index update by the total at the update. In
    between, accruals lower the total by one at most, and raise it by its 1e18th part at most; only a heal without
    a repayment, which has no reward hook, changes it by more. */
module BorrowerBlocks {
  import opened FixedPoint
  import opened Totals
  import opened Outcomes
  import opened Ledger
  import opened ExchangeRate
  import opened Borrowers
  import opened Rewards
  import opened SupplierRewards
  import opened BorrowerRewards

  // ---------- shares of an amount ----------

  /// What a share out of a total gets of an amount.
  ghost function Part(share: real, amount: real, total: real): real {
    if total <= 0.0 then 0.0 else Times(share, amount / total)
  }

  lemma PartOfNothing(share: real, total: real)
    ensures Part(share, 0.0, total) == 0.0
  {
    TimesZero(share);
    if total > 0.0 {
      RealDivBounds(0.0, total);
      RealMulCancel(0.0 / total, 0.0, total);
      RealMulCancel(0.0, 0.0 / total, total);
    }
  }

  lemma PartAdds(share: real, a: real, b: real, total: real)
    ensures Part(share, a + b, total) == Part(share, a, total) + Part(share, b, total)
  {
    if total > 0.0 {
      RealDivBounds(a, total);
      RealDivBounds(b, total);
      RealDivBounds(a + b, total);
      assert (a / total + b / total) * total == (a + b) / total * total;
      RealMulCancel(a / total + b / total, (a + b) / total, total);
      RealMulCancel((a + b) / total, a / total + b / total, total);
      TimesPlus(share, a / total, b / total);
    }
  }

  lemma QuotientNonNegative(a: real, total: real)
    requires 0.0 <= a && 0.0 < total
    ensures 0.0 <= a / total
  {
    RealDivBounds(a, total);
    RealMulCancel(0.0, a / total, total);
  }

  lemma QuotientFalls(a: real, less: real, more: real)
    requires 0.0 <= a && 0.0 < less <= more
    ensures a / more <= a / less
  {
    QuotientNonNegative(a, less);
    RealDivBounds(a, less);
    RealDivBounds(a, more);
    RealMulLe(less, more, a / less);
    assert more * (a / less) == a / less * more;
    assert less * (a / less) == a / less * less;
    RealMulCancel(a / more, a / less, more);
  }

  lemma PartNonNegative(share: real, a: real, total: real)
    requires 0.0 <= share && 0.0 <= a
    ensures 0.0 <= Part(share, a, total)
  {
    if total > 0.0 {
      QuotientNonNegative(a, total);
      TimesZero(share);
      TimesMonotone(share, 0.0, a / total);
    }
  }

  /// The larger the total, the smaller the part.
  lemma PartFalls(share: real, a: real, less: real, more: real)
    requires 0.0 <= share && 0.0 <= a && 0.0 < less <= more
    ensures Part(share, a, more) <= Part(share, a, less)
  {
    QuotientFalls(a, less, more);
    TimesMonotone(share, a / more, a / less);
  }

  lemma GrowthWithinPart(share: real, growth: real, a: real, total: real)
    requires 0.0 <= share && 0.0 < total && growth * total <= a
    ensures Times(share, growth) <= Part(share, a, total)
  {
    RealDivBounds(a, total);
    RealMulCancel(growth, a / total, total);
    TimesMonotone(share, growth, a / total);
  }

  lemma PartWithinGrowth(share: real, growth: real, a: real, total: real)
    requires 0.0 <= share && 0.0 < total && a <= (growth + 1.0) * total
    ensures Part(share, a, total) <= Times(share, growth) + share
  {
    RealDivBounds(a, total);
    RealMulCancel(a / total, growth + 1.0, total);
    TimesMonotone(share, a / total, growth + 1.0);
    TimesOneMore(share, growth);
  }

  // ---------- blocks ----------

  /// What some blocks release, times 1e36.
  ghost function Amount(w: BorrowWorld, blocks: nat): real {
    Times(DOUBLE, (blocks * w.speed) as real)
  }

  lemma AmountAdds(w: BorrowWorld, a: nat, b: nat)
    ensures Amount(w, a + b) == Amount(w, a) + Amount(w, b)
  {
    assert (a + b) * w.speed == a * w.speed + b * w.speed;
    TimesPlus(DOUBLE, (a * w.speed) as real, (b * w.speed) as real);
  }

  lemma AmountNonNegative(w: BorrowWorld, blocks: nat)
    ensures 0.0 <= Amount(w, blocks)
    ensures blocks * w.speed == 0 ==> Amount(w, blocks) == 0.0
  {
    TimesZero(DOUBLE);
    TimesMonotone(DOUBLE, 0.0, (blocks * w.speed) as real);
  }

  /// Rewarded blocks since the last index update.
  function PendingBlocks(w: BorrowWorld): nat {
    if RewardedUntil(w.state, w.now) < w.state.block then 0 else RewardedUntil(w.state, w.now) - w.state.block
  }

  function RewardedIn(w: BorrowWorld, blocks: nat): nat {
    var from, to := RewardedUntil(w.state, w.now), RewardedUntil(w.state, w.now + blocks);
    if to < from then 0 else to - from
  }

  /// Whether the event brings the index up to date.
  predicate UpdatesIndex(w: BorrowWorld, e: BorrowEvent) {
    match e
    case ClaimBorrow(_) => true
    case Touch => true
    case SetBorrowSpeed(speed) => speed != w.speed
    case Call(settings, action) => Apply(w.market, Step(settings, w.now, action)).Done? && HookFor(action) != {}
    case _ => false
  }

  function AccrualsOf(w: BorrowWorld, e: BorrowEvent): nat {
    match e
    case Call(settings, action) => Accruals1(w.market, Step(settings, w.now, action))
    case _ => 0
  }

  /// The accruals that come before the next index update.
  function AccrualsAhead(w: BorrowWorld, events: seq<BorrowEvent>): nat
    decreases |events|
  {
    if |events| == 0 || UpdatesIndex(w, events[0]) then 0
    else AccrualsOf(w, events[0]) + AccrualsAhead(BorrowNext(w, events[0]), events[1..])
  }

  /// A heal without a repayment.
  predicate UnhookedHeal(w: BorrowWorld, e: BorrowEvent) {
    e.Call? && e.action.Heal? && e.action.amount == 0 && Apply(w.market, Step(e.settings, w.now, e.action)).Done?
  }

  // ---------- three distributors ----------

  /// The normalised total of this block, less one for each accrual before the next update.
  ghost function LeastTotal(w: BorrowWorld, accruals: nat): real {
    if NormalisedTotal(w.market) - accruals < 1 then 1.0 else (NormalisedTotal(w.market) - accruals) as real
  }

  /// The normalised total before its truncation, and its 1e18th part more for each accrual.
  ghost function Ratio(m: LiveMarket): real {
    (m.totalBorrows * EXP_SCALE) as real / m.borrowIndex as real
  }

  ghost function Inflated(total: real, accruals: nat): real
    decreases accruals
  {
    if accruals == 0 then total else Inflated(total + total / ONE, accruals - 1)
  }

  /// A user's part of the blocks of one event: by this block's normalised total, and by its bounds. Where the total
  /// is zero the contract gives nothing to anybody, and neither do these.
  ghost function BlockPart(w: BorrowWorld, e: BorrowEvent, u: User): real {
    if !e.Advance? || NormalisedTotal(w.market) == 0 then 0.0
    else Part(Share(w.market, u), Amount(w, RewardedIn(w, e.blocks)), NormalisedTotal(w.market) as real)
  }

  ghost function MostPart(w: BorrowWorld, e: BorrowEvent, accruals: nat, u: User): real {
    if !e.Advance? then 0.0
    else Part(Share(w.market, u), Amount(w, RewardedIn(w, e.blocks)), LeastTotal(w, accruals))
  }

  ghost function LeastPart(w: BorrowWorld, e: BorrowEvent, accruals: nat, u: User): real {
    if !e.Advance? || NormalisedTotal(w.market) == 0 then 0.0
    else Part(Share(w.market, u), Amount(w, RewardedIn(w, e.blocks)), Inflated(Ratio(w.market), accruals))
  }

  ghost function PerBlock(w: BorrowWorld, events: seq<BorrowEvent>, u: User): real
    decreases |events|
  {
    if |events| == 0 then 0.0
    else BlockPart(w, events[0], u) + PerBlock(BorrowNext(w, events[0]), events[1..], u)
  }

  ghost function Most(w: BorrowWorld, events: seq<BorrowEvent>, u: User): real
    decreases |events|
  {
    if |events| == 0 then 0.0
    else MostPart(w, events[0], AccrualsAhead(w, events), u) + Most(BorrowNext(w, events[0]), events[1..], u)
  }

  ghost function Least(w: BorrowWorld, events: seq<BorrowEvent>, u: User): real
    decreases |events|
  {
    if |events| == 0 then 0.0
    else LeastPart(w, events[0], AccrualsAhead(w, events), u) + Least(BorrowNext(w, events[0]), events[1..], u)
  }

  // ---------- how accruals move the total ----------

  lemma RatioBounds(m: LiveMarket)
    ensures NormalisedTotal(m) as real <= Ratio(m) < NormalisedTotal(m) as real + 1.0 && 0.0 <= Ratio(m)
  {
    FloorOfQuotient(m.totalBorrows * EXP_SCALE, m.borrowIndex);
  }

  /// The borrows of one unit of index after an accrual, against before.
  lemma RatioArithmetic(g: real, b: real, b': real, i: real, i': real)
    requires 1.0 <= g && 0.0 <= b && 0.0 <= b' && ONE <= i && ONE <= i'
    requires b' <= g * b < b' + 1.0 && i' <= g * i < i' + 1.0
    ensures b * ONE / i - 1.0 <= b' * ONE / i' <= b * ONE / i + b * ONE / i / ONE
  {
    var r, r' := b * ONE / i, b' * ONE / i';
    RealDivBounds(b * ONE, i);
    RealDivBounds(b' * ONE, i');
    RealDivBounds(r, ONE);
    QuotientNonNegative(b * ONE, i);
    RatioFallsByOne(g, b, b', i, i', r, r');
    RatioRisesLittle(g, b, b', i, i', r, r');
  }

  lemma RatioFallsByOne(g: real, b: real, b': real, i: real, i': real, r: real, r': real)
    requires 0.0 <= r && r * i == b * ONE && r' * i' == b' * ONE && ONE <= i'
    requires g * b < b' + 1.0 && i' <= g * i
    ensures r - 1.0 <= r'
  {
    RealMulLe(i', g * i, r);
    assert g * i * r == g * (r * i) == g * b * ONE;
    assert (r - 1.0) * i' == i' * r - i';
    assert (b' + 1.0) * ONE == b' * ONE + ONE;
    RealMulLe(g * b, b' + 1.0, ONE);
    RealMulCancel(r - 1.0, r', i');
  }

  lemma RatioRisesLittle(g: real, b: real, b': real, i: real, i': real, r: real, r': real)
    requires 0.0 <= r && r * i == b * ONE && r' * i' == b' * ONE && ONE <= i'
    requires b' <= g * b && g * i < i' + 1.0
    ensures r' <= r + r / ONE
  {
    var s := r / ONE;
    RealDivBounds(r, ONE);
    QuotientNonNegative(r, ONE);
    RealMulLe(b', g * b, ONE);
    assert g * b * ONE == g * (r * i) == g * i * r;
    RealMulLe(g * i, i' + 1.0, r);
    assert r' * i' <= (i' + 1.0) * r;
    RisenWithin(i', r, s, r');
  }

  lemma RisenWithin(i: real, r: real, s: real, r': real)
    requires ONE <= i && 0.0 <= s && s * ONE == r && r' * i <= (i + 1.0) * r
    ensures r' <= r + s
  {
    RealMulLe(ONE, i, s);
    assert ONE * s == s * ONE;
    assert (i + 1.0) * r == i * r + r;
    assert (r + s) * i == i * r + i * s;
    RealMulCancel(r', r + s, i);
  }

  /// The same for the contract's truncated numbers.
  lemma AccruedRatio(factor: nat, b: nat, i: nat)
    requires EXP_SCALE <= i
    ensures var b', i' := MulTruncate(factor, b) + b, MulTruncate(factor, i) + i;
      && 0 < i'
      && b as real * ONE / i as real - 1.0 <= b' as real * ONE / i' as real
           <= b as real * ONE / i as real + b as real * ONE / i as real / ONE
  {
    GrowthOf(factor, b);
    GrowthOf(factor, i);
    GrowthAtLeastOne(factor);
    var b', i' := MulTruncate(factor, b) + b, MulTruncate(factor, i) + i;
    RatioArithmetic(1.0 + factor as real / ONE, b as real, b' as real, i as real, i' as real);
  }

  lemma AccrualMovesRatio(m: LiveMarket, step: Step)
    requires ExchangeRate.Inv(m) && Accruals1(m, step) == 1
    ensures Ratio(m) - 1.0 <= Ratio(MarketAfter(m, step)) <= Ratio(m) + Ratio(m) / ONE
  {
    AccruedNumbers(m, step);
    AccruedRatio(step.action.rate * (step.now - m.accrualBlock), m.totalBorrows, m.borrowIndex);
    RatioIs(m);
    RatioIs(MarketAfter(m, step));
  }

  lemma AccrualMovesTotal(m: LiveMarket, step: Step)
    requires ExchangeRate.Inv(m) && Accruals1(m, step) == 1
    ensures NormalisedTotal(m) - 1 <= NormalisedTotal(MarketAfter(m, step))
  {
    AccrualMovesRatio(m, step);
    RatioBounds(m);
    RatioBounds(MarketAfter(m, step));
  }

  lemma GrowthAtLeastOne(factor: nat)
    ensures 1.0 <= 1.0 + factor as real / ONE
  {
    QuotientNonNegative(factor as real, ONE);
  }

  lemma RatioIs(m: LiveMarket)
    ensures Ratio(m) == m.totalBorrows as real * ONE / m.borrowIndex as real
  {
    assert (m.totalBorrows * EXP_SCALE) as real == m.totalBorrows as real * ONE;
  }

  lemma AccruedNumbers(m: LiveMarket, step: Step)
    requires ExchangeRate.Inv(m) && Accruals1(m, step) == 1
    ensures m.accrualBlock <= step.now
    ensures var m', factor := MarketAfter(m, step), step.action.rate * (step.now - m.accrualBlock);
      && m'.borrowIndex == MulTruncate(factor, m.borrowIndex) + m.borrowIndex
      && m'.totalBorrows == MulTruncate(factor, m.totalBorrows) + m.totalBorrows
      && EXP_SCALE <= m'.borrowIndex
  {
  }

  lemma {:induction false} InflatedGrows(x: real, y: real, accruals: nat)
    requires 0.0 <= x <= y
    ensures x <= Inflated(x, accruals) <= Inflated(y, accruals)
    decreases accruals
  {
    if accruals > 0 {
      QuotientNonNegative(x, ONE);
      RealDivBounds(x, ONE);
      RealDivBounds(y, ONE);
      RealMulCancel(x / ONE, y / ONE, ONE);
      InflatedGrows(x + x / ONE, y + y / ONE, accruals - 1);
    }
  }

  // ---------- not more than the most ----------

  /// What is received and due by now, and what the pending blocks can still bring.
  ghost function Promise(w: BorrowWorld, total: real, u: User): real
    requires IndexInv(w)
  {
    BorrowDue(w, u) + Part(Share(w.market, u), Amount(w, PendingBlocks(w)), total)
  }

  lemma NothingPending(w: BorrowWorld, total: real, u: User)
    requires IndexInv(w) && PendingBlocks(w) * w.speed == 0
    ensures Promise(w, total, u) == BorrowDue(w, u)
  {
    AmountNonNegative(w, PendingBlocks(w));
    PartOfNothing(Share(w.market, u), total);
  }

  lemma ShareNonNegative(m: LiveMarket, u: User)
    requires ExchangeRate.Inv(m)
    ensures 0.0 <= Share(m, u)
  {
    UnitsBound(m, u);
  }

  lemma UpdatedPending(w: BorrowWorld)
    requires IndexInv(w)
    ensures IndexInv(IndexUpdated(w)) && PendingBlocks(IndexUpdated(w)) == 0
    ensures IndexUpdated(w) == w.(state := IndexUpdated(w).state)
    ensures PendingBlocks(w) * w.speed == 0 ==> Growth(w) == 0
  {
    UpdatedState(w);
    UpdatedBlock(w);
  }

  lemma UpdatedBlock(w: BorrowWorld)
    requires IndexInv(w)
    ensures IndexUpdated(w).state.block == RewardedUntil(w.state, w.now)
    ensures IndexUpdated(w).state.lastRewardingBlock == w.state.lastRewardingBlock
    ensures PendingBlocks(w) == 0 || w.speed == 0 ==> IndexUpdated(w).state.index == w.state.index
  {
  }

  /// An index update gives no more than the pending blocks promise.
  lemma UpdateWithinPromise(w: BorrowWorld, u: User)
    requires BorrowInv(w)
    ensures IndexInv(IndexUpdated(w)) && BorrowDue(IndexUpdated(w), u) <= Promise(w, LeastTotal(w, 0), u)
  {
    UpdateDue(w, u);
    ShareNonNegative(w.market, u);
    GrowthWithinReleased(w);
    var growth, total := Growth(w), NormalisedTotal(w.market);
    AmountNonNegative(w, PendingBlocks(w));
    if total == 0 {
      GrowthIs(w);
      TimesZero(Share(w.market, u));
      PartNonNegative(Share(w.market, u), Amount(w, PendingBlocks(w)), 1.0);
    } else {
      AmountIs(w, PendingBlocks(w));
      ProductReal(growth, total);
      GrowthWithinPart(Share(w.market, u), growth as real, Amount(w, PendingBlocks(w)), total as real);
    }
  }

  lemma AmountIs(w: BorrowWorld, blocks: nat)
    ensures Amount(w, blocks) == (blocks * w.speed * DOUBLE_SCALE) as real
  {
    ProductReal(DOUBLE_SCALE, blocks * w.speed);
  }

  /// The world after the settlement that an updating event makes.
  function SettledFor(w: BorrowWorld, e: BorrowEvent): BorrowWorld {
    match e
    case ClaimBorrow(holder) => BorrowerSettled(w, holder)
    case Call(_, action) => if HookFor(action) == {} then w else BorrowerSettled(w, action.borrower)
    case _ => w
  }

  function SettledUser(e: BorrowEvent): set<User> {
    match e
    case ClaimBorrow(holder) => {holder}
    case Call(_, action) => HookFor(action)
    case _ => {}
  }

  /// What an updating event does after the update and the settlement changes nobody's due.
  lemma AfterSettlement(w: BorrowWorld, e: BorrowEvent, u: User)
    requires BorrowInv(w) && UpdatesIndex(w, e)
    ensures var settled, w' := SettledFor(IndexUpdated(w), e), BorrowNext(w, e);
      && IndexInv(settled) && IndexInv(w') && PendingBlocks(w') == 0
      && BorrowDue(w', u) == BorrowDue(settled, u)
  {
    UpdatedPending(w);
    var updated := IndexUpdated(w);
    if e.ClaimBorrow? {
      SettledIndex(updated, e.holder);
    } else if e.Call? {
      SettledIndex(updated, e.action.borrower);
      var step := Step(e.settings, w.now, e.action);
      if u != e.action.borrower {
        SharesAfterCall(w.market, step, u);
      }
      CallDue(BorrowerSettled(updated, e.action.borrower), BorrowNext(w, e), u);
    }
  }

  lemma UpdatingEvent(w: BorrowWorld, e: BorrowEvent, u: User)
    requires BorrowInv(w) && UpdatesIndex(w, e)
    ensures var updated, w' := IndexUpdated(w), BorrowNext(w, e);
      && IndexInv(updated) && IndexInv(w') && PendingBlocks(w') == 0
      && BorrowDue(w', u) <= BorrowDue(updated, u)
      && BorrowDue(updated, u) <= BorrowDue(w', u) + if u in SettledUser(e) then SettlementLoss(updated, u) else 0.0
  {
    UpdatedPending(w);
    var updated := IndexUpdated(w);
    AfterSettlement(w, e, u);
    if e.ClaimBorrow? {
      SettleDue(updated, e.holder, u);
    } else if e.Call? {
      SettleDue(updated, e.action.borrower, u);
    }
  }

  /// An event that neither passes blocks, nor updates the index, nor heals without a repayment, leaves due and
  /// pending alone, and moves the total by no more than its own accrual may.
  ghost predicate Quiet(w: BorrowWorld, w': BorrowWorld, accruals: nat, u: User) {
    && IndexInv(w) && IndexInv(w')
    && PendingBlocks(w') == PendingBlocks(w) && w'.speed == w.speed
    && BorrowDue(w', u) == BorrowDue(w, u) && Share(w'.market, u) == Share(w.market, u)
    && NormalisedTotal(w.market) - accruals <= NormalisedTotal(w'.market)
    && (Ratio(w'.market) == 0.0 ==> Ratio(w.market) == 0.0)
    && Ratio(w'.market) <= (if accruals == 0 then Ratio(w.market) else Ratio(w.market) + Ratio(w.market) / ONE)
  }

  lemma QuietCall(w: BorrowWorld, settings: AllowedSettings, action: Action, u: User)
    requires BorrowInv(w)
    requires var step := Step(settings, w.now, action); Apply(w.market, step).Done? && !action.Heal? && HookFor(action) == {}
    ensures var e := Call(settings, action); Quiet(w, BorrowNext(w, e), AccrualsOf(w, e), u)
  {
    var step := Step(settings, w.now, action);
    SharesAfterCall(w.market, step, u);
    CallDue(w, BorrowNext(w, Call(settings, action)), u);
    if Accruals1(w.market, step) == 1 {
      AccrualMovesRatio(w.market, step);
      AccrualMovesTotal(w.market, step);
      AccrualKeepsBorrows(w.market, step);
    } else {
      SameTotals(w.market, step);
    }
  }

  lemma RatioZero(m: LiveMarket)
    ensures Ratio(m) == 0.0 <==> m.totalBorrows == 0
  {
    RatioIs(m);
    var b, i := m.totalBorrows as real, m.borrowIndex as real;
    RealDivBounds(b * ONE, i);
    if m.totalBorrows == 0 {
      RealMulCancel(Ratio(m), 0.0, i);
      RatioBounds(m);
    }
  }

  lemma AccrualKeepsBorrows(m: LiveMarket, step: Step)
    requires ExchangeRate.Inv(m) && Accruals1(m, step) == 1
    ensures Ratio(MarketAfter(m, step)) == 0.0 ==> Ratio(m) == 0.0
  {
    AccruedNumbers(m, step);
    RatioZero(m);
    RatioZero(MarketAfter(m, step));
  }

  lemma {:induction false} InflatedZero(accruals: nat)
    ensures Inflated(0.0, accruals) == 0.0
    decreases accruals
  {
    if accruals > 0 {
      RealDivBounds(0.0, ONE);
      RealMulCancel(0.0 / ONE, 0.0, ONE);
      RealMulCancel(0.0, 0.0 / ONE, ONE);
      InflatedZero(accruals - 1);
    }
  }

  lemma SameTotals(m: LiveMarket, step: Step)
    requires Apply(m, step).Done? && Accruals1(m, step) == 0
    requires !step.action.Borrow? && !step.action.Repay? && !step.action.Heal?
    ensures Ratio(MarketAfter(m, step)) == Ratio(m) && NormalisedTotal(MarketAfter(m, step)) == NormalisedTotal(m)
  {
    DebtUntouchedStep(m, step);
  }

  lemma QuietEvent(w: BorrowWorld, e: BorrowEvent, u: User)
    requires BorrowInv(w) && !e.Advance? && !UpdatesIndex(w, e) && !UnhookedHeal(w, e)
    ensures Quiet(w, BorrowNext(w, e), AccrualsOf(w, e), u)
  {
    match e
    case Call(settings, action) =>
      if Apply(w.market, Step(settings, w.now, action)).Done? {
        QuietCall(w, settings, action, u);
      }
    case SetBorrowLast(block) =>
    case _ =>
  }

  /// What the pending blocks can bring after a quiet event, by either bound of the total.
  lemma QuietPromises(w: BorrowWorld, w': BorrowWorld, own: nat, ahead: nat, u: User)
    requires BorrowInv(w) && Quiet(w, w', own, u) && own <= 1
    ensures Promise(w', LeastTotal(w', ahead), u) <= Promise(w, LeastTotal(w, own + ahead), u)
    ensures Promise(w, Inflated(Ratio(w.market), own + ahead), u) <= Promise(w', Inflated(Ratio(w'.market), ahead), u)
  {
    ShareNonNegative(w.market, u);
    AmountNonNegative(w, PendingBlocks(w));
    var share, amount := Share(w.market, u), Amount(w, PendingBlocks(w));
    PartFalls(share, amount, LeastTotal(w, own + ahead), LeastTotal(w', ahead));
    RatioBounds(w.market);
    RatioBounds(w'.market);
    if Ratio(w'.market) > 0.0 {
      var risen := if own == 0 then Ratio(w.market) else Ratio(w.market) + Ratio(w.market) / ONE;
      InflatedGrows(Ratio(w'.market), risen, ahead);
      PartFalls(share, amount, Inflated(Ratio(w'.market), ahead), Inflated(risen, ahead));
    } else {
      InflatedZero(ahead);
      InflatedZero(own + ahead);
    }
  }

  /// Passing blocks adds their part.
  lemma AdvancePromise(w: BorrowWorld, blocks: nat, total: real, u: User)
    requires BorrowInv(w)
    ensures var w' := BorrowNext(w, Advance(blocks));
      && IndexInv(w')
      && Promise(w', total, u) == Promise(w, total, u) + Part(Share(w.market, u), Amount(w, RewardedIn(w, blocks)), total)
  {
    var w' := BorrowNext(w, Advance(blocks));
    AmountAdds(w, PendingBlocks(w), RewardedIn(w, blocks));
    PartAdds(Share(w.market, u), Amount(w, PendingBlocks(w)), Amount(w, RewardedIn(w, blocks)), total);
    assert PendingBlocks(w') == PendingBlocks(w) + RewardedIn(w, blocks);
    assert BorrowDue(w', u) == BorrowDue(w, u);
  }

  /// A heal without a repayment takes the healed user's share.
  lemma HealedDue(w: BorrowWorld, e: BorrowEvent, u: User)
    requires BorrowInv(w) && UnhookedHeal(w, e)
    ensures var w' := BorrowNext(w, e);
      && IndexInv(w') && PendingBlocks(w') == PendingBlocks(w) && w'.speed == w.speed
      && (u == e.action.borrower ==>
            && Share(w'.market, u) == 0.0
            && BorrowDue(w', u) == Times(DOUBLE, Get(w.received, u) as real) <= BorrowDue(w, u))
      && (u != e.action.borrower ==> Share(w'.market, u) == Share(w.market, u) && BorrowDue(w', u) == BorrowDue(w, u))
  {
    var step := Step(e.settings, w.now, e.action);
    if u == e.action.borrower {
      HealedShare(w.market, step);
      TimesZero(Unsettled(w, u));
      TimesNonNegative(w, u);
    } else {
      SharesAfterCall(w.market, step, u);
    }
  }

  ghost predicate HealMovesNothing(w: BorrowWorld, heal: BorrowEvent) {
    PendingBlocks(w) * w.speed == 0 || NormalisedTotal(BorrowNext(w, heal).market) == NormalisedTotal(w.market)
  }

  /// No heal without a repayment lowers the normalised total while rewards are pending.
  ghost predicate HealsUpToDate(w: BorrowWorld, events: seq<BorrowEvent>)
    decreases |events|
  {
    |events| == 0 ||
    ((UnhookedHeal(w, events[0]) ==> HealMovesNothing(w, events[0]))
     && HealsUpToDate(BorrowNext(w, events[0]), events[1..]))
  }

  lemma MostAtHeal(w: BorrowWorld, e: BorrowEvent, accruals: nat, u: User)
    requires BorrowInv(w) && UnhookedHeal(w, e) && HealMovesNothing(w, e)
    ensures var w' := BorrowNext(w, e);
      IndexInv(w') && Promise(w', LeastTotal(w', accruals), u) <= Promise(w, LeastTotal(w, accruals), u)
  {
    var w' := BorrowNext(w, e);
    HealedDue(w, e, u);
    if PendingBlocks(w) * w.speed == 0 {
      NothingPending(w, LeastTotal(w, accruals), u);
      NothingPending(w', LeastTotal(w', accruals), u);
    } else {
      ShareNonNegative(w.market, u);
      AmountNonNegative(w, PendingBlocks(w));
      PartNonNegative(Share(w.market, u), Amount(w, PendingBlocks(w)), LeastTotal(w, accruals));
      TimesZero(Amount(w, PendingBlocks(w)) / LeastTotal(w, accruals));
    }
  }

  lemma MostAtUpdate(w: BorrowWorld, e: BorrowEvent, total': real, u: User)
    requires BorrowInv(w) && UpdatesIndex(w, e)
    ensures IndexInv(BorrowNext(w, e)) && Promise(BorrowNext(w, e), total', u) <= Promise(w, LeastTotal(w, 0), u)
  {
    UpdatingEvent(w, e, u);
    UpdateWithinPromise(w, u);
    NothingPending(BorrowNext(w, e), total', u);
  }

  lemma AheadOf(w: BorrowWorld, e: BorrowEvent, rest: seq<BorrowEvent>)
    ensures AccrualsAhead(w, [e] + rest)
         == if UpdatesIndex(w, e) then 0 else AccrualsOf(w, e) + AccrualsAhead(BorrowNext(w, e), rest)
    ensures e.Advance? || UnhookedHeal(w, e) ==> AccrualsOf(w, e) == 0 && !UpdatesIndex(w, e)
    ensures AccrualsOf(w, e) <= 1
  {
    assert ([e] + rest)[1..] == rest;
  }

  /// The accruals ahead before and after an event, kind by kind.
  lemma AheadBefore(w: BorrowWorld, e: BorrowEvent, rest: seq<BorrowEvent>, ahead: nat)
    requires ahead == AccrualsAhead(BorrowNext(w, e), rest)
    ensures e.Advance? ==> AccrualsAhead(w, [e] + rest) == ahead
    ensures !e.Advance? && UpdatesIndex(w, e) ==> AccrualsAhead(w, [e] + rest) == 0
    ensures !e.Advance? && !UpdatesIndex(w, e) && UnhookedHeal(w, e) ==> AccrualsAhead(w, [e] + rest) == ahead
    ensures !e.Advance? && !UpdatesIndex(w, e) && !UnhookedHeal(w, e) ==>
      AccrualsAhead(w, [e] + rest) == AccrualsOf(w, e) + ahead && AccrualsOf(w, e) <= 1
  {
    AheadOf(w, e, rest);
  }

  lemma MostAtQuiet(w: BorrowWorld, e: BorrowEvent, ahead: nat, u: User)
    requires BorrowInv(w) && !e.Advance? && !UpdatesIndex(w, e) && !UnhookedHeal(w, e) && AccrualsOf(w, e) <= 1
    ensures IndexInv(BorrowNext(w, e))
    ensures Promise(BorrowNext(w, e), LeastTotal(BorrowNext(w, e), ahead), u)
         <= Promise(w, LeastTotal(w, AccrualsOf(w, e) + ahead), u)
    ensures Promise(w, Inflated(Ratio(w.market), AccrualsOf(w, e) + ahead), u)
         <= Promise(BorrowNext(w, e), Inflated(Ratio(BorrowNext(w, e).market), ahead), u)
  {
    QuietEvent(w, e, u);
    QuietPromises(w, BorrowNext(w, e), AccrualsOf(w, e), ahead, u);
  }

  lemma SameLeastTotal(w: BorrowWorld, blocks: nat, accruals: nat)
    ensures LeastTotal(BorrowNext(w, Advance(blocks)), accruals) == LeastTotal(w, accruals)
    ensures Ratio(BorrowNext(w, Advance(blocks)).market) == Ratio(w.market)
  {
  }

  /// An event keeps what is due and promised within what the most generous distributor has given.
  ghost predicate KeepsMost(w: BorrowWorld, e: BorrowEvent, before: nat, after: nat, u: User) {
    var w' := BorrowNext(w, e);
    && IndexInv(w) && IndexInv(w')
    && Promise(w', LeastTotal(w', after), u) <= Promise(w, LeastTotal(w, before), u) + MostPart(w, e, before, u)
  }

  lemma MostAtAdvance(w: BorrowWorld, blocks: nat, ahead: nat, u: User)
    requires BorrowInv(w)
    ensures KeepsMost(w, Advance(blocks), ahead, ahead, u)
  {
    AdvancePromise(w, blocks, LeastTotal(w, ahead), u);
    SameLeastTotal(w, blocks, ahead);
  }

  lemma MostUpdated(w: BorrowWorld, e: BorrowEvent, ahead: nat, u: User)
    requires BorrowInv(w) && !e.Advance? && UpdatesIndex(w, e)
    ensures KeepsMost(w, e, 0, ahead, u)
  {
    MostAtUpdate(w, e, LeastTotal(BorrowNext(w, e), ahead), u);
  }

  lemma MostHealed(w: BorrowWorld, e: BorrowEvent, ahead: nat, u: User)
    requires BorrowInv(w) && !e.Advance? && UnhookedHeal(w, e) && HealMovesNothing(w, e)
    ensures KeepsMost(w, e, ahead, ahead, u)
  {
    MostAtHeal(w, e, ahead, u);
  }

  lemma MostQuiet(w: BorrowWorld, e: BorrowEvent, ahead: nat, u: User)
    requires BorrowInv(w) && !e.Advance? && !UpdatesIndex(w, e) && !UnhookedHeal(w, e) && AccrualsOf(w, e) <= 1
    ensures KeepsMost(w, e, AccrualsOf(w, e) + ahead, ahead, u)
  {
    MostAtQuiet(w, e, ahead, u);
  }

  lemma MostStep(w: BorrowWorld, e: BorrowEvent, rest: seq<BorrowEvent>, u: User)
    requires BorrowInv(w) && (UnhookedHeal(w, e) ==> HealMovesNothing(w, e))
    ensures KeepsMost(w, e, AccrualsAhead(w, [e] + rest), AccrualsAhead(BorrowNext(w, e), rest), u)
  {
    var ahead := AccrualsAhead(BorrowNext(w, e), rest);
    AheadBefore(w, e, rest, ahead);
    if e.Advance? {
      MostAtAdvance(w, e.blocks, ahead, u);
    } else if UpdatesIndex(w, e) {
      MostUpdated(w, e, ahead, u);
    } else if UnhookedHeal(w, e) {
      MostHealed(w, e, ahead, u);
    } else {
      MostQuiet(w, e, ahead, u);
    }
  }

  lemma {:induction false} MostRun(w: BorrowWorld, events: seq<BorrowEvent>, u: User)
    requires BorrowInv(w) && HealsUpToDate(w, events)
    ensures var w' := BorrowRun(w, events);
      && BorrowInv(w')
      && BorrowDue(w', u) <= Promise(w, LeastTotal(w, AccrualsAhead(w, events)), u) + Most(w, events, u)
    decreases |events|
  {
    if |events| == 0 {
      ShareNonNegative(w.market, u);
      AmountNonNegative(w, PendingBlocks(w));
      PartNonNegative(Share(w.market, u), Amount(w, PendingBlocks(w)), LeastTotal(w, 0));
    } else {
      assert [events[0]] + events[1..] == events;
      NextInv(w, events[0]);
      MostStep(w, events[0], events[1..], u);
      MostRun(BorrowNext(w, events[0]), events[1..], u);
    }
  }

  // ---------- not less than the least ----------

  /// What an index update loses of the pending promise: at most one unit of the index, unless the normalised total
  /// has been truncated to nothing, when it gives nothing.
  ghost function UpdateLoss(w: BorrowWorld, u: User): real {
    if PendingBlocks(w) * w.speed == 0 then 0.0
    else if NormalisedTotal(w.market) > 0 then Share(w.market, u)
    else Part(Share(w.market, u), Amount(w, PendingBlocks(w)), Ratio(w.market))
  }

  /// What a heal without a repayment loses: all that is unsettled of the healed user, and what is pending for
  /// everybody if it leaves no borrows.
  ghost function HealLoss(w: BorrowWorld, e: BorrowEvent, accruals: nat, u: User): real {
    var pending := Part(Share(w.market, u), Amount(w, PendingBlocks(w)), Inflated(Ratio(w.market), accruals));
    if e.Call? && e.action.Heal? && u == e.action.borrower then Times(Share(w.market, u), Unsettled(w, u)) + pending
    else if BorrowNext(w, e).market.totalBorrows == 0 then pending
    else 0.0
  }

  ghost function EventLoss(w: BorrowWorld, e: BorrowEvent, accruals: nat, u: User): real {
    if UpdatesIndex(w, e) then
      UpdateLoss(w, u) + if u in SettledUser(e) then SettlementLoss(IndexUpdated(w), u) else 0.0
    else if UnhookedHeal(w, e) then HealLoss(w, e, accruals, u)
    else 0.0
  }

  ghost function Losses(w: BorrowWorld, events: seq<BorrowEvent>, u: User): real
    decreases |events|
  {
    if |events| == 0 then 0.0
    else EventLoss(w, events[0], AccrualsAhead(w, events), u) + Losses(BorrowNext(w, events[0]), events[1..], u)
  }

  lemma UpdateKeepsPromise(w: BorrowWorld, u: User)
    requires BorrowInv(w)
    ensures IndexInv(IndexUpdated(w))
    ensures Promise(w, Ratio(w.market), u) <= BorrowDue(IndexUpdated(w), u) + UpdateLoss(w, u)
  {
    UpdateDue(w, u);
    UpdatedPending(w);
    ShareNonNegative(w.market, u);
    var growth, total, share := Growth(w), NormalisedTotal(w.market), Share(w.market, u);
    if PendingBlocks(w) * w.speed == 0 {
      NothingPending(w, Ratio(w.market), u);
      GrowthNeeds(w);
      TimesZero(share);
    } else if total > 0 {
      PendingWithinGrowth(w, u);
    } else {
      GrowthIs(w);
      TimesZero(share);
    }
  }

  lemma PendingWithinGrowth(w: BorrowWorld, u: User)
    requires BorrowInv(w) && PendingBlocks(w) * w.speed != 0 && NormalisedTotal(w.market) > 0
    ensures Part(Share(w.market, u), Amount(w, PendingBlocks(w)), Ratio(w.market))
         <= Times(Share(w.market, u), Growth(w) as real) + Share(w.market, u)
  {
    var total, share, amount := NormalisedTotal(w.market) as real, Share(w.market, u), Amount(w, PendingBlocks(w));
    GrowthIsEnough(w);
    ShareNonNegative(w.market, u);
    RatioBounds(w.market);
    AmountNonNegative(w, PendingBlocks(w));
    PartWithinGrowth(share, Growth(w) as real, amount, total);
    PartFalls(share, amount, total, Ratio(w.market));
  }

  lemma GrowthNeeds(w: BorrowWorld)
    requires IndexInv(w) && PendingBlocks(w) * w.speed == 0
    ensures Growth(w) == 0
  {
    UpdatedBlock(w);
  }

  lemma GrowthIsEnough(w: BorrowWorld)
    requires IndexInv(w) && NormalisedTotal(w.market) > 0 && PendingBlocks(w) * w.speed != 0
    ensures Amount(w, PendingBlocks(w)) <= (Growth(w) as real + 1.0) * NormalisedTotal(w.market) as real
  {
    var blocks, total := PendingBlocks(w), NormalisedTotal(w.market);
    AmountIs(w, blocks);
    GrowthAt(w);
    GrowthCeiling(blocks * w.speed * DOUBLE_SCALE, total);
    ProductReal(Growth(w) + 1, total);
  }

  lemma GrowthAt(w: BorrowWorld)
    requires IndexInv(w) && PendingBlocks(w) * w.speed != 0
    ensures Growth(w) == IndexGrowth(PendingBlocks(w), w.speed, NormalisedTotal(w.market))
  {
  }

  lemma GrowthCeiling(x: nat, total: nat)
    requires 0 < total
    ensures x <= (x / total + 1) * total
  {
    DivBounds(x, total, x / total + 1);
  }

  lemma LeastAtUpdate(w: BorrowWorld, e: BorrowEvent, total': real, u: User)
    requires BorrowInv(w) && UpdatesIndex(w, e)
    ensures IndexInv(BorrowNext(w, e))
    ensures Promise(w, Ratio(w.market), u) <= Promise(BorrowNext(w, e), total', u) + EventLoss(w, e, 0, u)
  {
    UpdatingEvent(w, e, u);
    UpdateKeepsPromise(w, u);
    NothingPending(BorrowNext(w, e), total', u);
  }

  lemma HealedNumbers(w: BorrowWorld, e: BorrowEvent)
    requires UnhookedHeal(w, e)
    ensures var m, m' := w.market, BorrowNext(w, e).market;
      m'.borrowIndex == m.borrowIndex && m'.totalBorrows <= m.totalBorrows
  {
  }

  lemma RatioRisesWithBorrows(b: real, b': real, i: real)
    requires b' <= b && 0.0 < i
    ensures b' * ONE / i <= b * ONE / i
  {
    RealDivBounds(b * ONE, i);
    RealDivBounds(b' * ONE, i);
    RealMulLe(b', b, ONE);
    RealMulCancel(b' * ONE / i, b * ONE / i, i);
  }

  lemma HealLowersRatio(w: BorrowWorld, e: BorrowEvent)
    requires UnhookedHeal(w, e)
    ensures Ratio(BorrowNext(w, e).market) <= Ratio(w.market)
  {
    var m, m' := w.market, BorrowNext(w, e).market;
    HealedNumbers(w, e);
    RatioIs(m);
    RatioIs(m');
    RatioRisesWithBorrows(m.totalBorrows as real, m'.totalBorrows as real, m.borrowIndex as real);
  }

  lemma LeastAtHeal(w: BorrowWorld, e: BorrowEvent, accruals: nat, u: User)
    requires BorrowInv(w) && UnhookedHeal(w, e)
    ensures IndexInv(BorrowNext(w, e))
    ensures Promise(w, Inflated(Ratio(w.market), accruals), u)
         <= Promise(BorrowNext(w, e), Inflated(Ratio(BorrowNext(w, e).market), accruals), u) + HealLoss(w, e, accruals, u)
  {
    var m' := BorrowNext(w, e).market;
    HealedDue(w, e, u);
    ShareNonNegative(w.market, u);
    var share, amount := Share(w.market, u), Amount(w, PendingBlocks(w));
    AmountNonNegative(w, PendingBlocks(w));
    RatioBounds(m');
    RatioZero(m');
    HealLowersRatio(w, e);
    PartNonNegative(Share(m', u), amount, Inflated(Ratio(m'), accruals));
    if u != e.action.borrower && m'.totalBorrows > 0 {
      InflatedGrows(Ratio(m'), Ratio(w.market), accruals);
      PartFalls(share, amount, Inflated(Ratio(m'), accruals), Inflated(Ratio(w.market), accruals));
    }
  }

  /// What is due and promised, with the least part of the event, is still there after it but for its losses.
  ghost predicate KeepsLeast(w: BorrowWorld, e: BorrowEvent, accruals: nat, ahead: nat, u: User) {
    var w' := BorrowNext(w, e);
    && IndexInv(w) && IndexInv(w')
    && Promise(w, Inflated(Ratio(w.market), accruals), u) + LeastPart(w, e, accruals, u)
         <= Promise(w', Inflated(Ratio(w'.market), ahead), u) + EventLoss(w, e, accruals, u)
  }

  lemma LeastAtAdvance(w: BorrowWorld, blocks: nat, accruals: nat, u: User)
    requires BorrowInv(w)
    ensures KeepsLeast(w, Advance(blocks), accruals, accruals, u)
  {
    AdvancePromise(w, blocks, Inflated(Ratio(w.market), accruals), u);
    SameLeastTotal(w, blocks, accruals);
    ShareNonNegative(w.market, u);
    AmountNonNegative(w, RewardedIn(w, blocks));
    PartNonNegative(Share(w.market, u), Amount(w, RewardedIn(w, blocks)), Inflated(Ratio(w.market), accruals));
  }

  lemma LeastUpdated(w: BorrowWorld, e: BorrowEvent, ahead: nat, u: User)
    requires BorrowInv(w) && UpdatesIndex(w, e)
    ensures KeepsLeast(w, e, 0, ahead, u)
  {
    LeastAtUpdate(w, e, Inflated(Ratio(BorrowNext(w, e).market), ahead), u);
  }

  lemma LeastHealed(w: BorrowWorld, e: BorrowEvent, accruals: nat, u: User)
    requires BorrowInv(w) && UnhookedHeal(w, e)
    ensures KeepsLeast(w, e, accruals, accruals, u)
  {
    LeastAtHeal(w, e, accruals, u);
  }

  lemma LeastQuiet(w: BorrowWorld, e: BorrowEvent, ahead: nat, u: User)
    requires BorrowInv(w) && !e.Advance? && !UpdatesIndex(w, e) && !UnhookedHeal(w, e) && AccrualsOf(w, e) <= 1
    ensures KeepsLeast(w, e, AccrualsOf(w, e) + ahead, ahead, u)
  {
    MostAtQuiet(w, e, ahead, u);
  }

  lemma LeastStep(w: BorrowWorld, e: BorrowEvent, rest: seq<BorrowEvent>, u: User)
    requires BorrowInv(w)
    ensures KeepsLeast(w, e, AccrualsAhead(w, [e] + rest), AccrualsAhead(BorrowNext(w, e), rest), u)
  {
    var ahead := AccrualsAhead(BorrowNext(w, e), rest);
    AheadBefore(w, e, rest, ahead);
    if e.Advance? {
      LeastAtAdvance(w, e.blocks, ahead, u);
    } else if UpdatesIndex(w, e) {
      LeastUpdated(w, e, ahead, u);
    } else if UnhookedHeal(w, e) {
      LeastHealed(w, e, ahead, u);
    } else {
      LeastQuiet(w, e, ahead, u);
    }
  }

  lemma {:induction false} LeastRun(w: BorrowWorld, events: seq<BorrowEvent>, u: User)
    requires BorrowInv(w)
    ensures var w' := BorrowRun(w, events);
      && BorrowInv(w')
      && Promise(w, Inflated(Ratio(w.market), AccrualsAhead(w, events)), u) + Least(w, events, u)
           <= Promise(w', Ratio(w'.market), u) + Losses(w, events, u)
    decreases |events|
  {
    if |events| > 0 {
      assert [events[0]] + events[1..] == events;
      NextInv(w, events[0]);
      LeastStep(w, events[0], events[1..], u);
      LeastRun(BorrowNext(w, events[0]), events[1..], u);
    }
  }

  // ---------- the three compared ----------

  lemma BlockPartBounds(w: BorrowWorld, e: BorrowEvent, accruals: nat, u: User)
    requires BorrowInv(w)
    ensures LeastPart(w, e, accruals, u) <= BlockPart(w, e, u) <= MostPart(w, e, accruals, u)
    ensures accruals == 0 && NormalisedTotal(w.market) > 0 ==> MostPart(w, e, accruals, u) == BlockPart(w, e, u)
  {
    if e.Advance? {
      ShareNonNegative(w.market, u);
      var share, amount, total := Share(w.market, u), Amount(w, RewardedIn(w, e.blocks)), NormalisedTotal(w.market);
      AmountNonNegative(w, RewardedIn(w, e.blocks));
      PartNonNegative(share, amount, LeastTotal(w, accruals));
      if total > 0 {
        RatioBounds(w.market);
        InflatedGrows(Ratio(w.market), Ratio(w.market), accruals);
        PartFalls(share, amount, total as real, Inflated(Ratio(w.market), accruals));
        PartFalls(share, amount, LeastTotal(w, accruals), total as real);
      }
    }
  }

  /// No accrual comes between a block and the next index update, and somebody borrows when blocks pass.
  ghost predicate UpdatesFollow(w: BorrowWorld, events: seq<BorrowEvent>)
    decreases |events|
  {
    |events| == 0 ||
    ((events[0].Advance? ==> AccrualsAhead(w, events) == 0 && NormalisedTotal(w.market) > 0)
     && UpdatesFollow(BorrowNext(w, events[0]), events[1..]))
  }

  lemma {:induction false} BlocksBracketed(w: BorrowWorld, events: seq<BorrowEvent>, u: User)
    requires BorrowInv(w)
    ensures Least(w, events, u) <= PerBlock(w, events, u) <= Most(w, events, u)
    ensures UpdatesFollow(w, events) ==> Most(w, events, u) == PerBlock(w, events, u)
    decreases |events|
  {
    if |events| > 0 {
      BlockPartBounds(w, events[0], AccrualsAhead(w, events), u);
      NextInv(w, events[0]);
      BlocksBracketed(BorrowNext(w, events[0]), events[1..], u);
      if !events[0].Advance? {
        assert MostPart(w, events[0], AccrualsAhead(w, events), u) == BlockPart(w, events[0], u);
      }
    }
  }

  /// Over every run in which no heal without a repayment lowers the normalised total while rewards are pending, so
  /// also one in which such heals find nothing pending: what a borrower received is at most
  /// the borrower's part of every rewarded block by that block's normalised total, less one for each accrual before
  /// the next index update; and where updates follow without accruals, at most the part of every block exactly.
  lemma BorrowersWithinBlocks(w: BorrowWorld, events: seq<BorrowEvent>, u: User)
    requires BorrowInitial(w) && HealsUpToDate(w, events)
    ensures var w' := BorrowRun(w, events);
      && Times(DOUBLE, Get(w'.received, u) as real) <= BorrowDue(w', u) <= Most(w, events, u)
      && (UpdatesFollow(w, events) ==> Times(DOUBLE, Get(w'.received, u) as real) <= PerBlock(w, events, u))
  {
    BorrowInitialRefines(w);
    InitialPromise(w, LeastTotal(w, AccrualsAhead(w, events)), u);
    MostRun(w, events, u);
    BorrowDueCovers(BorrowRun(w, events), u);
    BlocksBracketed(w, events, u);
  }

  lemma InitialPromise(w: BorrowWorld, total: real, u: User)
    requires BorrowInitial(w)
    ensures IndexInv(w) && Promise(w, total, u) == 0.0
  {
    BorrowInitialRefines(w);
    assert Tracks(w, NOTHING_YET, u);
    NothingPending(w, total, u);
  }

  /// Over every run: what a borrower received, with what is due and pending, is at least the part of every rewarded
  /// block by its exact normalised total, risen by its 1e18th part for each accrual before the next update, but for
  /// the stated losses: a unit and two units of balance for each settlement, a unit of index for each update, and
  /// what heals without a repayment forfeit.
  lemma BorrowersCloseToBlocks(w: BorrowWorld, events: seq<BorrowEvent>, u: User)
    requires BorrowInitial(w)
    ensures var w' := BorrowRun(w, events);
      && IndexInv(w')
      && Least(w, events, u) <= Promise(w', Ratio(w'.market), u) + Losses(w, events, u)
      && Least(w, events, u) <= PerBlock(w, events, u) <= Most(w, events, u)
  {
    BorrowInitialRefines(w);
    InitialPromise(w, Inflated(Ratio(w.market), AccrualsAhead(w, events)), u);
    LeastRun(w, events, u);
    BlocksBracketed(w, events, u);
  }
}

/** What a distributor's users get over whole runs, and which claims are paid. */
module RewardClaims {
  import opened FixedPoint
  import opened Totals
  import opened Outcomes
  import opened Ledger
  import ExchangeRate
  import opened Borrowers
  import opened Rewards
  import opened BorrowerRewards
  import opened Distributor
  import opened RewardRuns
  import SupplierRewards
  import opened RewardSteps

  // ---------- whole runs ----------

  lemma {:induction false} RunKeeps(w: World, events: seq<Event>)
    requires Holds(w)
    ensures Keeps(w, RewardRuns.Run(w, events))
    decreases |events|
  {
    if |events| > 0 {
      EventKeeps(w, events[0]);
      RunKeeps(Next(w, events[0]), events[1..]);
      KeepsBoth(w, Next(w, events[0]), RewardRuns.Run(w, events));
    }
  }

  lemma DeployedHolds(now: nat)
    ensures Holds(Deployed(now)) && Due(Deployed(now)) == 0.0 == Ceiling(Deployed(now))
  {
    var w := Deployed(now);
    forall v
      ensures MarketHolds(w, v)
    {
    }
    assert OfMarkets(w) == map[] && Reals(w.paid) == map[] && Reals(w.books.accrued) == map[];
    TimesZero(DOUBLE);
  }

  lemma {:induction false} UnsettledNonNegative(m: LiveMarket, k: Kind, side: Side, v: MarketId)
    requires ExchangeRate.Inv(m)
    ensures 0.0 <= Total(UnsettledWorth(SharesOf(m, k), side, v))
  {
    var a := UnsettledWorth(SharesOf(m, k), side, v);
    forall u | u in a
      ensures 0.0 <= a[u]
    {
      UnitsWithinShares(m, k, u);
      TimesMonotone(Since(side, v, u) as real, 0.0, SharesOf(m, k)[u]);
      TimesSwap(Since(side, v, u) as real, SharesOf(m, k)[u]);
      TimesZero(Since(side, v, u) as real);
    }
    TotalNonNegative(a);
  }

  lemma DueCoversReceived(w: World)
    requires Holds(w)
    ensures Times(DOUBLE, Received(w)) <= Due(w)
  {
    forall v | v in OfMarkets(w)
      ensures 0.0 <= OfMarkets(w)[v]
    {
      MarketHoldsAt(w, v);
      UnsettledNonNegative(w.pool[v], Suppliers, w.books.supply, v);
      UnsettledNonNegative(w.pool[v], Borrowing, w.books.borrow, v);
    }
    TotalNonNegative(OfMarkets(w));
  }

  /// Over every run from deployment: what all users of all markets have accrued and been paid, on both sides, is at
  /// most what all sides released and the excess of the borrow sides, which counts, at each index update, the
  /// index's growth for each accrual so far and once more.
  lemma ReceivedWithinReleased(now: nat, events: seq<Event>)
    ensures var w := RewardRuns.Run(Deployed(now), events);
      Holds(w) && Times(DOUBLE, Received(w)) <= Times(DOUBLE, w.released as real) + w.excess as real
  {
    DeployedHolds(now);
    RunKeeps(Deployed(now), events);
    DueCoversReceived(RewardRuns.Run(Deployed(now), events));
  }

  // ---------- claims ----------

  lemma ReceivedParts(w: World, u: User)
    ensures Get(w.books.accrued, u) as real + Total(Reals(w.paid)) <= Received(w)
  {
    TotalNonNegative(Reals(w.books.accrued));
    assert At(Reals(w.books.accrued), u) == Get(w.books.accrued, u) as real;
  }

  /// What is held is enough for any user's rewards if what is held and was paid is enough for what was released, and
  /// the excess.
  ghost predicate Funded(w: World) {
    Ceiling(w) <= Times(DOUBLE, w.books.held as real + Total(Reals(w.paid)))
  }

  lemma FundedCovers(w: World, u: User)
    requires Holds(w) && Due(w) <= Ceiling(w) && Funded(w)
    ensures Get(w.books.accrued, u) <= w.books.held
  {
    DueCoversReceived(w);
    ReceivedParts(w, u);
    RealMulCancel(Received(w), w.books.held as real + Total(Reals(w.paid)), DOUBLE);
  }

  lemma UpdateMatches(w: World, v: MarketId)
    requires Holds(w) && v in w.pool
    ensures UpdateSupplyIndex(w.books, w.pool, v, w.now) == Done(Update(w, Suppliers, v).books)
    ensures UpdateBorrowIndex(w.books, w.pool, v, w.now) == Done(Update(w, Borrowing, v).books)
  {
    MarketHoldsAt(w, v);
    UpdatedSide(w.books.supply, v, w.now, w.pool[v].totalSupply);
    UpdatedSide(w.books.borrow, v, w.now, NormalisedTotal(w.pool[v]));
  }

  lemma SettleMatches(w: World, v: MarketId, u: User)
    requires Holds(w) && v in w.pool
    ensures DistributeSupplier(w.books, w.pool, v, u) == Done(Settle(w, Suppliers, v, u).books)
    ensures DistributeBorrower(w.books, w.pool, v, u) == Done(Settle(w, Borrowing, v, u).books)
  {
    MarketHoldsAt(w, v);
    assert IndexInRange(w.books.supply, v, u) && IndexInRange(w.books.borrow, v, u);
  }

  lemma MarketMatches(w: World, v: MarketId, u: User)
    requires Holds(w) && v in w.pool
    ensures SettleMarket(w.books, w.pool, v, u, w.now) == Done(SettleBoth(w, v, u).books)
  {
    var w1 := Update(w, Borrowing, v);
    var w2 := Settle(w1, Borrowing, v, u);
    var w3 := Update(w2, Suppliers, v);
    UpdateMatches(w, v);
    UpdateKeeps(w, Borrowing, v);
    SettleMatches(w1, v, u);
    SettleKeeps(w1, Borrowing, v, u);
    UpdateMatches(w2, v);
    UpdateKeeps(w2, Suppliers, v);
    SettleMatches(w3, v, u);
  }

  lemma {:induction false} SettleAllMatches(w: World, vs: seq<MarketId>, u: User)
    requires Holds(w) && forall v :: v in vs ==> v in w.pool
    ensures SettleMarkets(w.books, w.pool, vs, u, w.now) == Done(SettleAll(w, vs, u).books)
    decreases |vs|
  {
    if |vs| > 0 {
      MarketMatches(w, vs[0], u);
      SettleBothKeeps(w, vs[0], u);
      SettleAllMatches(SettleBoth(w, vs[0], u), vs[1..], u);
    }
  }

  lemma {:induction false} UnlistedReverts(w: World, vs: seq<MarketId>, u: User, v: MarketId)
    requires Holds(w) && v in vs && v !in w.pool
    ensures SettleMarkets(w.books, w.pool, vs, u, w.now).Revert?
    decreases |vs|
  {
    if vs[0] in w.pool {
      MarketMatches(w, vs[0], u);
      SettleBothKeeps(w, vs[0], u);
      UnlistedReverts(SettleBoth(w, vs[0], u), vs[1..], u, v);
    }
  }

  /// A claim in any state reached from deployment is the contract's, and reverts only for a market not listed. It pays
  /// all that has accrued if that is held, and otherwise nothing; and it is held whenever what was held and paid
  /// covers what was released with the excess.
  lemma ClaimIsPaid(now: nat, events: seq<Event>, u: User, vs: seq<MarketId>)
    ensures var w := RewardRuns.Run(Deployed(now), events);
      var w', claimed := Next(w, Event.Claim(u, vs)), Distributor.Claim(w.books, w.pool, vs, u, w.now);
      && (claimed.Done? <==> forall v :: v in vs ==> v in w.pool)
      && (claimed.Done? ==>
            var settled := SettleAll(w, vs, u);
            var due := Get(settled.books.accrued, u);
            && w'.books == claimed.value
            && (due <= w.books.held <==> Get(w'.books.accrued, u) == 0 && Get(w'.paid, u) == Get(w.paid, u) + due)
            && (w.books.held < due <==> Get(w'.books.accrued, u) == due && w'.paid == w.paid && due != 0)
            && (Funded(settled) ==> due <= w.books.held))
  {
    var w := RewardRuns.Run(Deployed(now), events);
    DeployedHolds(now);
    RunKeeps(Deployed(now), events);
    ClaimOutcome(w, u, vs);
  }

  lemma ClaimOutcome(w: World, u: User, vs: seq<MarketId>)
    requires Holds(w) && Due(w) <= Ceiling(w)
    ensures var w', claimed := Next(w, Event.Claim(u, vs)), Distributor.Claim(w.books, w.pool, vs, u, w.now);
      && (claimed.Done? <==> forall v :: v in vs ==> v in w.pool)
      && (claimed.Done? ==>
            var settled := SettleAll(w, vs, u);
            var due := Get(settled.books.accrued, u);
            && w'.books == claimed.value
            && (due <= w.books.held <==> Get(w'.books.accrued, u) == 0 && Get(w'.paid, u) == Get(w.paid, u) + due)
            && (w.books.held < due <==> Get(w'.books.accrued, u) == due && w'.paid == w.paid && due != 0)
            && (Funded(settled) ==> due <= w.books.held))
  {
    if v :| v in vs && v !in w.pool {
      UnlistedReverts(w, vs, u, v);
    } else {
      SettleAllMatches(w, vs, u);
      SettleAllKeeps(w, vs, u);
      GrantOutcome(SettleAll(w, vs, u), u);
      if Funded(SettleAll(w, vs, u)) {
        FundedCovers(SettleAll(w, vs, u), u);
      }
    }
  }

  lemma GrantOutcome(w: World, u: User)
    ensures var w', due := Granted(w, u), Get(w.books.accrued, u);
      && w'.books == Grant(w.books, u)
      && (due <= w.books.held <==> Get(w'.books.accrued, u) == 0 && Get(w'.paid, u) == Get(w.paid, u) + due)
      && (w.books.held < due <==> Get(w'.books.accrued, u) == due && w'.paid == w.paid && due != 0)
  {
  }

  // ---------- suppliers only ----------

  ghost predicate NoBorrowSpeeds(w: World) {
    w.excess == 0 && forall v :: Get(w.books.borrow.speeds, v) == 0
  }

  predicate SuppliersOnly(events: seq<Event>) {
    forall i :: 0 <= i < |events| && events[i].SetSpeeds? ==> events[i].borrowSpeed == 0
  }

  lemma UpdateAddsNoExcess(w: World, k: Kind, v: MarketId)
    requires v in w.pool && NoBorrowSpeeds(w)
    ensures NoBorrowSpeeds(Update(w, k, v))
  {
  }

  lemma SettleAddsNoExcess(w: World, k: Kind, v: MarketId, u: User)
    requires v in w.pool && NoBorrowSpeeds(w)
    ensures NoBorrowSpeeds(Settle(w, k, v, u))
  {
  }

  lemma {:induction false} EachAddsNoExcess(w: World, k: Kind, v: MarketId, us: seq<User>)
    requires v in w.pool && NoBorrowSpeeds(w)
    ensures NoBorrowSpeeds(SettleEach(w, k, v, us))
    decreases |us|
  {
    if |us| > 0 {
      SettleAddsNoExcess(w, k, v, us[0]);
      EachAddsNoExcess(Settle(w, k, v, us[0]), k, v, us[1..]);
    }
  }

  lemma BothAddNoExcess(w: World, v: MarketId, u: User)
    requires v in w.pool && NoBorrowSpeeds(w)
    ensures NoBorrowSpeeds(SettleBoth(w, v, u))
  {
    UpdateAddsNoExcess(w, Borrowing, v);
    SettleAddsNoExcess(Update(w, Borrowing, v), Borrowing, v, u);
    UpdateAddsNoExcess(Settle(Update(w, Borrowing, v), Borrowing, v, u), Suppliers, v);
    SettleAddsNoExcess(Update(Settle(Update(w, Borrowing, v), Borrowing, v, u), Suppliers, v), Suppliers, v, u);
  }

  lemma {:induction false} AllAddNoExcess(w: World, vs: seq<MarketId>, u: User)
    requires NoBorrowSpeeds(w) && forall v :: v in vs ==> v in w.pool
    ensures NoBorrowSpeeds(SettleAll(w, vs, u))
    decreases |vs|
  {
    if |vs| > 0 {
      BothAddNoExcess(w, vs[0], u);
      AllAddNoExcess(SettleBoth(w, vs[0], u), vs[1..], u);
    }
  }

  lemma CallAddsNoExcess(w: World, v: MarketId, settings: AllowedSettings, action: Action)
    requires v in w.pool && NoBorrowSpeeds(w)
    ensures NoBorrowSpeeds(Called(w, v, settings, action))
  {
    if Apply(w.pool[v], Step(settings, w.now, action)).Done? {
      CalledIs(w, v, settings, action);
      if SettledFor(action) != [] {
        UpdateAddsNoExcess(w, KindFor(action), v);
        EachAddsNoExcess(Update(w, KindFor(action), v), KindFor(action), v, SettledFor(action));
      }
    }
  }

  lemma EventAddsNoExcess(w: World, e: Event)
    requires NoBorrowSpeeds(w) && (e.SetSpeeds? ==> e.borrowSpeed == 0)
    ensures NoBorrowSpeeds(Next(w, e))
  {
    match e
    case Call(v, settings, action) => if v in w.pool { CallAddsNoExcess(w, v, settings, action); }
    case Claim(u, vs) => if forall v :: v in vs ==> v in w.pool { AllAddNoExcess(w, vs, u); }
    case SetSpeeds(v, supplySpeed, borrowSpeed) =>
      if v in w.pool {
        UpdateAddsNoExcess(w, Suppliers, v);
        UpdateAddsNoExcess(SpeedSet(w, Suppliers, v, supplySpeed), Borrowing, v);
      }
    case _ =>
  }

  lemma {:induction false} RunAddsNoExcess(w: World, events: seq<Event>)
    requires NoBorrowSpeeds(w) && SuppliersOnly(events)
    ensures NoBorrowSpeeds(RewardRuns.Run(w, events))
    decreases |events|
  {
    if |events| > 0 {
      EventAddsNoExcess(w, events[0]);
      RunAddsNoExcess(Next(w, events[0]), events[1..]);
    }
  }

  /// Without rewards for borrowers, the suppliers of all markets together never get more than was released, and a
  /// distributor funded with that pays every claim.
  lemma SuppliersWithinReleased(now: nat, events: seq<Event>, u: User, vs: seq<MarketId>)
    requires SuppliersOnly(events)
    ensures var w := RewardRuns.Run(Deployed(now), events);
      && Received(w) <= w.released as real
      && ((forall v :: v in vs ==> v in w.pool) ==>
            var settled := SettleAll(w, vs, u);
            settled.released as real <= w.books.held as real + Total(Reals(w.paid)) ==>
              Get(settled.books.accrued, u) <= w.books.held)
  {
    var w := RewardRuns.Run(Deployed(now), events);
    RunAddsNoExcess(Deployed(now), events);
    DeployedHolds(now);
    RunKeeps(Deployed(now), events);
    SuppliersReceived(w);
    if (forall v :: v in vs ==> v in w.pool)
       && SettleAll(w, vs, u).released as real <= w.books.held as real + Total(Reals(w.paid)) {
      SuppliersClaim(w, u, vs);
    }
  }

  lemma SuppliersReceived(w: World)
    requires Holds(w) && Due(w) <= Ceiling(w) && NoBorrowSpeeds(w)
    ensures Received(w) <= w.released as real
  {
    DueCoversReceived(w);
    RealMulCancel(Received(w), w.released as real, DOUBLE);
  }

  lemma SuppliersClaim(w: World, u: User, vs: seq<MarketId>)
    requires Holds(w) && Due(w) <= Ceiling(w) && NoBorrowSpeeds(w) && forall v :: v in vs ==> v in w.pool
    requires SettleAll(w, vs, u).released as real <= w.books.held as real + Total(Reals(w.paid))
    ensures Get(SettleAll(w, vs, u).books.accrued, u) <= w.books.held
  {
    var settled := SettleAll(w, vs, u);
    AllAddNoExcess(w, vs, u);
    SettleAllKeeps(w, vs, u);
    TimesMonotone(DOUBLE, settled.released as real, w.books.held as real + Total(Reals(w.paid)));
    FundedCovers(settled, u);
  }

  // ---------- the pool against its single markets ----------

  /// A side whose speed changes has first released what was pending at the speed so far, in an index that is up to date.
  lemma SpeedChangeReleases(w: World, k: Kind, v: MarketId, speed: nat)
    requires Holds(w) && v in w.pool && Get(SideOf(w.books, k).speeds, v) != speed
    ensures var w', side := SpeedSet(w, k, v, speed), SideOf(w.books, k);
      var side' := SideOf(w'.books, k);
      && Get(side'.speeds, v) == speed && side'.indices == side.indices
      && side'.State(v).block == RewardedUntil(side.State(v), w.now)
      && w'.released == w.released + (RewardedUntil(side.State(v), w.now) - side.State(v).block) * Get(side.speeds, v)
      && side.Updated(v, w.now, TotalOf(w.pool[v], k)) == Done(side'.(speeds := side.speeds))
  {
    MarketHoldsAt(w, v);
    UpdatedSide(SideOf(w.books, k), v, w.now, TotalOf(w.pool[v], k));
  }

  /// The last rewarding blocks of a market are set for both sides, each its own, or for neither.
  lemma LastsAreSet(w: World, v: MarketId, supplyLast: nat, borrowLast: nat)
    requires v in w.pool
    ensures var w' := RewardRuns.Next(w, SetLast(v, supplyLast, borrowLast));
      var supply, borrow := w.books.supply.State(v), w.books.borrow.State(v);
      if && w.now < supplyLast && (supply.lastRewardingBlock == 0 || w.now < supply.lastRewardingBlock)
         && w.now < borrowLast && (borrow.lastRewardingBlock == 0 || w.now < borrow.lastRewardingBlock)
      then && w'.books.supply.State(v) == supply.(lastRewardingBlock := supplyLast)
           && w'.books.borrow.State(v) == borrow.(lastRewardingBlock := borrowLast)
           && w'.books.accrued == w.books.accrued && w'.released == w.released
      else w' == w
  {
    SupplierRewards.LastIsSet(w.books.supply.State(v), w.now, supplyLast);
    SupplierRewards.LastIsSet(w.books.borrow.State(v), w.now, borrowLast);
  }

  function SuppliersSettled(w: SupplierRewards.World, us: seq<User>): SupplierRewards.World
    decreases |us|
  {
    if |us| == 0 then w else SuppliersSettled(SupplierRewards.Settled(w, us[0]), us[1..])
  }

  lemma {:induction false} SupplyEachAgrees(w: World, v: MarketId, us: seq<User>, paid: map<User, nat>)
    requires Holds(w) && v in w.pool
    ensures SupplySide(SettleEach(w, Suppliers, v, us).books, w.pool, v, w.now, paid)
         == SuppliersSettled(SupplySide(w.books, w.pool, v, w.now, paid), us)
    decreases |us|
  {
    if |us| > 0 {
      SettleMatches(w, v, us[0]);
      SettleKeeps(w, Suppliers, v, us[0]);
      SupplySideSettles(w.books, w.pool, v, us[0], w.now, paid);
      SupplyEachAgrees(Settle(w, Suppliers, v, us[0]), v, us[1..], paid);
    }
  }

  /// The hooks of a call about suppliers do in the pool's books what the single-market model of suppliers does: bring
  /// the index up to date and settle whom the call concerns.
  lemma SupplyHooksAgree(w: World, v: MarketId, action: Action, paid: map<User, nat>)
    requires Holds(w) && v in w.pool && KindFor(action) == Suppliers && SettledFor(action) != []
    ensures SupplySide(AfterHooks(w, v, action).books, w.pool, v, w.now, paid)
         == SuppliersSettled(SupplierRewards.Updated(SupplySide(w.books, w.pool, v, w.now, paid)), SettledFor(action))
  {
    UpdateMatches(w, v);
    UpdateKeeps(w, Suppliers, v);
    SupplySideUpdates(w.books, w.pool, v, w.now, paid);
    SupplyEachAgrees(Update(w, Suppliers, v), v, SettledFor(action), paid);
  }

  /// And those about borrowers what the single-market model of borrowers does.
  lemma BorrowHooksAgree(w: World, v: MarketId, action: Action, accruals: nat)
    requires Holds(w) && v in w.pool && KindFor(action) == Borrowing
    ensures BorrowSide(AfterHooks(w, v, action).books, w.pool, v, w.now, accruals)
         == BorrowerRewards.Hooked(BorrowSide(w.books, w.pool, v, w.now, accruals), action)
  {
    BorrowHookIs(w, v, action);
    SettlesBorrowers(action);
    if SettledFor(action) != [] {
      OneBorrowHook(w, v, action.borrower, accruals);
    }
  }

  lemma BorrowHookIs(w: World, v: MarketId, action: Action)
    requires v in w.pool && KindFor(action) == Borrowing
    ensures SettledFor(action) == [] || SettledFor(action) == [action.borrower]
    ensures AfterHooks(w, v, action)
         == if SettledFor(action) == [] then w else Settle(Update(w, Borrowing, v), Borrowing, v, action.borrower)
  {
    if SettledFor(action) != [] {
      SettleEachOfOne(Update(w, Borrowing, v), v, action.borrower);
    }
  }

  lemma SettleEachOfOne(w: World, v: MarketId, u: User)
    requires v in w.pool
    ensures SettleEach(w, Borrowing, v, [u]) == Settle(w, Borrowing, v, u)
  {
    assert [u][1..] == [];
  }

  lemma OneBorrowHook(w: World, v: MarketId, u: User, accruals: nat)
    requires Holds(w) && v in w.pool
    ensures BorrowSide(Settle(Update(w, Borrowing, v), Borrowing, v, u).books, w.pool, v, w.now, accruals)
         == BorrowerSettled(IndexUpdated(BorrowSide(w.books, w.pool, v, w.now, accruals)), u)
  {
    var w1 := Update(w, Borrowing, v);
    UpdateMatches(w, v);
    UpdateKeeps(w, Borrowing, v);
    BorrowSideUpdates(w.books, w.pool, v, w.now, accruals);
    SettleMatches(w1, v, u);
    BorrowSideSettles(w1.books, w.pool, v, u, w.now, accruals);
  }
}

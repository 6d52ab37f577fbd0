/** The markets each account is in: a list per account beside a membership map, changed by entering,
    leaving (the last entry takes the place of the one removed), borrowing and unlisting. */
module AssetLists {
  import opened Outcomes

  type MarketId = nat
  type Account = nat

  datatype Lists = Lists(
    allMarkets: seq<MarketId>,
    listed: set<MarketId>,
    members: set<(MarketId, Account)>,
    assets: map<Account, seq<MarketId>>)

  function ListOf(s: Lists, a: Account): seq<MarketId> {
    if a in s.assets then s.assets[a] else []
  }

  predicate NoRepeats(list: seq<MarketId>) {
    forall i, j :: 0 <= i < j < |list| ==> list[i] != list[j]
  }

  // ---------- what the contract does ----------

  function AddToMarket(s: Lists, mk: MarketId, a: Account, paused: bool): Outcome<Lists> {
    if paused then Revert(ActionPaused)
    else if mk !in s.listed then Revert(MarketNotListed)
    else if (mk, a) in s.members then Done(s)
    else Done(s.(members := s.members + {(mk, a)}, assets := s.assets[a := ListOf(s, a) + [mk]]))
  }

  /// Entering several markets, all or none.
  function EnterMarkets(s: Lists, mks: seq<MarketId>, a: Account, paused: set<MarketId>): Outcome<Lists>
    decreases |mks|
  {
    if |mks| == 0 then Done(s)
    else match AddToMarket(s, mks[0], a, mks[0] in paused)
      case Revert(e) => Revert(e)
      case Done(s') => EnterMarkets(s', mks[1..], a, paused)
  }

  /// The part of the borrow hook that enters the borrower; only the market itself may cause it.
  function BorrowHook(s: Lists, mk: MarketId, a: Account, fromMarket: bool, paused: bool): Outcome<Lists> {
    if mk !in s.listed then Revert(MarketNotListed)
    else if (mk, a) in s.members then Done(s)
    else if !fromMarket then Revert(Unauthorized)
    else AddToMarket(s, mk, a, paused)
  }

  function IndexIn(list: seq<MarketId>, mk: MarketId): nat {
    if |list| == 0 || list[0] == mk then 0 else 1 + IndexIn(list[1..], mk)
  }

  /// The last entry takes the place of entry i.
  function SwapAndPop(list: seq<MarketId>, i: nat): seq<MarketId>
    requires i < |list|
  {
    list[i := list[|list| - 1]][..|list| - 1]
  }

  /// `owed` is the account's borrow in the market, `redeemCheck` what the liquidity check says to redeeming all
  /// its vTokens.
  function ExitMarket(s: Lists, mk: MarketId, a: Account, paused: bool, owed: nat, redeemCheck: Outcome<()>): Outcome<Lists> {
    if paused then Revert(ActionPaused)
    else if owed != 0 then Revert(NonzeroBorrowBalance)
    else if mk !in s.listed then Revert(MarketNotListed)
    else if (mk, a) !in s.members then Done(s)
    else if redeemCheck.Revert? then Revert(redeemCheck.error)
    else
      var i := IndexIn(ListOf(s, a), mk);
      if i >= |ListOf(s, a)| then Revert(Panic)
      else Done(s.(members := s.members - {(mk, a)}, assets := s.assets[a := SwapAndPop(ListOf(s, a), i)]))
  }

  datatype Pausable = BORROW | MINT | REDEEM | REPAY | SEIZE | ENTER_MARKET | LIQUIDATE | TRANSFER | EXIT_MARKET

  /// What governance has set for a market.
  datatype Controls = Controls(paused: set<Pausable>, borrowCap: nat, supplyCap: nat, collateralFactor: nat)

  /// A market may be unlisted when every action is paused, nothing may be borrowed or supplied, and its
  /// collateral does not count.
  predicate ShutDown(c: Controls) {
    (forall action: Pausable :: action in c.paused) && c.borrowCap == 0 && c.supplyCap == 0 && c.collateralFactor == 0
  }

  predicate EachPaused(paused: set<Pausable>) {
    && BORROW in paused && MINT in paused && REDEEM in paused && REPAY in paused && SEIZE in paused
    && ENTER_MARKET in paused && LIQUIDATE in paused && TRANSFER in paused && EXIT_MARKET in paused
  }

  function UnlistMarket(s: Lists, mk: MarketId, c: Controls): Outcome<Lists> {
    if mk !in s.listed then Revert(MarketNotListed)
    else if !EachPaused(c.paused) then Revert(ActionNotPaused)
    else if c.borrowCap != 0 then Revert(BorrowCapIsNotZero)
    else if c.supplyCap != 0 then Revert(SupplyCapIsNotZero)
    else if c.collateralFactor != 0 then Revert(CollateralFactorIsNotZero)
    else Done(s.(listed := s.listed - {mk}))
  }

  /// Unlisting passes exactly for a listed market that is shut down.
  lemma UnlistsWhenShutDown(s: Lists, mk: MarketId, c: Controls)
    ensures UnlistMarket(s, mk, c).Done? <==> mk in s.listed && ShutDown(c)
  {
    if EachPaused(c.paused) {
      forall action: Pausable
        ensures action in c.paused
      {
        match action
        case BORROW =>
        case MINT =>
        case REDEEM =>
        case REPAY =>
        case SEIZE =>
        case ENTER_MARKET =>
        case LIQUIDATE =>
        case TRANSFER =>
        case EXIT_MARKET =>
      }
    }
  }

  /// A market that was ever supported is not supported again, listed or not.
  function SupportMarket(s: Lists, mk: MarketId): Outcome<Lists> {
    if mk in s.listed || mk in s.allMarkets then Revert(MarketAlreadyListed)
    else Done(s.(listed := s.listed + {mk}, allMarkets := s.allMarkets + [mk]))
  }

  /// What the comptroller reports: the account's list without unlisted markets.
  function AssetsIn(listed: set<MarketId>, list: seq<MarketId>): seq<MarketId> {
    if |list| == 0 then []
    else
      var last := list[|list| - 1];
      AssetsIn(listed, list[..|list| - 1]) + if last in listed then [last] else []
  }

  // ---------- runs ----------

  datatype Event =
    | Enter(mks: seq<MarketId>, account: Account, pausedMarkets: set<MarketId>)
    | Exit(market: MarketId, account: Account, paused: bool, owed: nat, redeemCheck: Outcome<()>)
    | Borrow(market: MarketId, account: Account, fromMarket: bool, paused: bool)
    | Unlist(market: MarketId, controls: Controls)
    | Support(market: MarketId)

  function Next(s: Lists, e: Event): Outcome<Lists> {
    match e
    case Enter(mks, a, paused) => EnterMarkets(s, mks, a, paused)
    case Exit(mk, a, paused, owed, redeemCheck) => ExitMarket(s, mk, a, paused, owed, redeemCheck)
    case Borrow(mk, a, fromMarket, paused) => BorrowHook(s, mk, a, fromMarket, paused)
    case Unlist(mk, c) => UnlistMarket(s, mk, c)
    case Support(mk) => SupportMarket(s, mk)
  }

  function After(s: Lists, e: Event): Lists {
    match Next(s, e)
    case Done(s') => s'
    case Revert(_) => s
  }

  function Run(s: Lists, events: seq<Event>): Lists
    decreases |events|
  {
    if |events| == 0 then s else Run(After(s, events[0]), events[1..])
  }

  const NO_MARKETS: Lists := Lists([], {}, {}, map[])

  // ---------- the invariant ----------

  ghost predicate ListInv(s: Lists, a: Account) {
    && NoRepeats(ListOf(s, a))
    && forall mk :: mk in ListOf(s, a) <==> (mk, a) in s.members
  }

  ghost predicate Inv(s: Lists) {
    && (forall a :: ListInv(s, a))
    && NoRepeats(s.allMarkets)
    && (forall mk :: mk in s.listed ==> mk in s.allMarkets)
  }

  lemma AddKeeps(s: Lists, mk: MarketId, a: Account, paused: bool)
    requires Inv(s) && AddToMarket(s, mk, a, paused).Done?
    ensures Inv(AddToMarket(s, mk, a, paused).value)
  {
    var s' := AddToMarket(s, mk, a, paused).value;
    forall b
      ensures ListInv(s', b)
    {
      assert ListInv(s, b);
    }
  }

  lemma {:induction false} EnterKeeps(s: Lists, mks: seq<MarketId>, a: Account, paused: set<MarketId>)
    requires Inv(s) && EnterMarkets(s, mks, a, paused).Done?
    ensures Inv(EnterMarkets(s, mks, a, paused).value)
    decreases |mks|
  {
    if |mks| > 0 {
      AddKeeps(s, mks[0], a, mks[0] in paused);
      EnterKeeps(AddToMarket(s, mks[0], a, mks[0] in paused).value, mks[1..], a, paused);
    }
  }

  lemma {:induction false} IndexFinds(list: seq<MarketId>, mk: MarketId)
    ensures IndexIn(list, mk) <= |list|
    ensures mk in list <==> IndexIn(list, mk) < |list|
    ensures mk in list ==> list[IndexIn(list, mk)] == mk
    ensures forall j :: 0 <= j < IndexIn(list, mk) ==> list[j] != mk
    decreases |list|
  {
    if |list| > 0 && list[0] != mk {
      IndexFinds(list[1..], mk);
      forall j | 0 <= j < IndexIn(list, mk)
        ensures list[j] != mk
      {
        if j > 0 {
          assert list[j] == list[1..][j - 1];
        }
      }
    }
  }

  /// Swapping the last entry in and popping removes exactly the entry asked for.
  lemma SwapAndPopRemoves(list: seq<MarketId>, i: nat)
    requires i < |list| && NoRepeats(list)
    ensures var r := SwapAndPop(list, i);
      && |r| == |list| - 1 && NoRepeats(r)
      && (forall mk :: mk in r <==> mk in list && mk != list[i])
      && (forall j :: 0 <= j < |r| ==> r[j] == if j == i then list[|list| - 1] else list[j])
  {
    var r, last := SwapAndPop(list, i), |list| - 1;
    forall mk
      ensures mk in r <==> mk in list && mk != list[i]
    {
      if mk in list && mk != list[i] {
        var k :| 0 <= k < |list| && list[k] == mk;
        assert r[if k == last then i else k] == mk;
      }
      if mk in r {
        var k :| 0 <= k < |r| && r[k] == mk;
        assert mk == list[if k == i then last else k];
      }
    }
  }

  /// A member of a listed market without a borrow leaves it when the liquidity check lets it: the search never
  /// comes back empty-handed.
  lemma ExitKeeps(s: Lists, mk: MarketId, a: Account, paused: bool, owed: nat, redeemCheck: Outcome<()>)
    requires Inv(s)
    ensures ExitMarket(s, mk, a, paused, owed, redeemCheck).Done? <==>
      (!paused && owed == 0 && mk in s.listed && ((mk, a) in s.members ==> redeemCheck.Done?))
    ensures ExitMarket(s, mk, a, paused, owed, redeemCheck).Done? ==>
      Inv(ExitMarket(s, mk, a, paused, owed, redeemCheck).value)
  {
    var list := ListOf(s, a);
    assert ListInv(s, a);
    IndexFinds(list, mk);
    if mk in list {
      SwapAndPopRemoves(list, IndexIn(list, mk));
    }
    if ExitMarket(s, mk, a, paused, owed, redeemCheck).Done? {
      var s' := ExitMarket(s, mk, a, paused, owed, redeemCheck).value;
      forall b
        ensures ListInv(s', b)
      {
        assert ListInv(s, b);
        if s' != s {
          assert b != a ==> ListOf(s', b) == ListOf(s, b);
        }
      }
    }
  }

  lemma EventKeeps(s: Lists, e: Event)
    requires Inv(s)
    ensures Inv(After(s, e))
  {
    match e
    case Enter(mks, a, paused) => if EnterMarkets(s, mks, a, paused).Done? { EnterKeeps(s, mks, a, paused); }
    case Exit(mk, a, paused, owed, redeemCheck) => ExitKeeps(s, mk, a, paused, owed, redeemCheck);
    case Borrow(mk, a, fromMarket, paused) =>
      if AddToMarket(s, mk, a, paused).Done? { AddKeeps(s, mk, a, paused); }
    case Unlist(mk, c) => assert forall b :: ListInv(s, b) ==> ListInv(After(s, e), b);
    case Support(mk) => assert forall b :: ListInv(s, b) ==> ListInv(After(s, e), b);
  }

  /// Over every run, each account's list holds each market at most once and holds exactly the markets
  /// the membership map says; and each market is supported at most once.
  lemma {:induction false} ListsAgree(s: Lists, events: seq<Event>)
    requires Inv(s)
    ensures Inv(Run(s, events))
    decreases |events|
  {
    if |events| > 0 {
      EventKeeps(s, events[0]);
      ListsAgree(After(s, events[0]), events[1..]);
    }
  }

  lemma {:induction false} ReportedMarkets(listed: set<MarketId>, list: seq<MarketId>)
    ensures forall mk :: mk in AssetsIn(listed, list) <==> mk in list && mk in listed
    ensures NoRepeats(list) ==> NoRepeats(AssetsIn(listed, list))
    decreases |list|
  {
    if |list| > 0 {
      var front, last := list[..|list| - 1], list[|list| - 1];
      ReportedMarkets(listed, front);
      assert forall mk :: mk in list <==> mk in front || mk == last;
      if NoRepeats(list) {
        assert last !in front;
      }
    }
  }

  /// From the start, what is reported for an account is its memberships in listed markets, each once; and
  /// unlisting a market changes no list and no membership.
  lemma ReportIsListedMembership(events: seq<Event>, a: Account, mk: MarketId)
    ensures var s := Run(NO_MARKETS, events);
      var report := AssetsIn(s.listed, ListOf(s, a));
      && NoRepeats(report)
      && (mk in report <==> (mk, a) in s.members && mk in s.listed)
      && (forall c :: var s' := After(s, Unlist(mk, c));
            && s'.members == s.members && s'.assets == s.assets
            && (s' != s ==> mk !in AssetsIn(s'.listed, ListOf(s', a))))
  {
    var s := Run(NO_MARKETS, events);
    ListsAgree(NO_MARKETS, events);
    assert ListInv(s, a);
    ReportedMarkets(s.listed, ListOf(s, a));
    ReportedMarkets(s.listed - {mk}, ListOf(s, a));
  }

  /// The unlisted market's members cannot leave it any more.
  lemma UnlistedMembersStay(s: Lists, events: seq<Event>, mk: MarketId, a: Account)
    requires Inv(s) && mk in s.allMarkets && mk !in s.listed && (mk, a) in s.members
    ensures var s' := Run(s, events); mk !in s'.listed && (mk, a) in s'.members
    decreases |events|
  {
    if |events| > 0 {
      EventKeeps(s, events[0]);
      UnlistedStep(s, events[0], mk, a);
      UnlistedMembersStay(After(s, events[0]), events[1..], mk, a);
    }
  }

  /// A market is entered exactly when entering it is not paused and it is listed; and markets together exactly when
  /// each is.
  lemma {:induction false} EnteringPasses(s: Lists, mks: seq<MarketId>, a: Account, paused: set<MarketId>)
    ensures EnterMarkets(s, mks, a, paused).Done? <==> forall i :: 0 <= i < |mks| ==> mks[i] !in paused && mks[i] in s.listed
    decreases |mks|
  {
    if |mks| > 0 {
      assert mks[0] in mks;
      if AddToMarket(s, mks[0], a, mks[0] in paused).Done? {
        EnteringPasses(AddToMarket(s, mks[0], a, mks[0] in paused).value, mks[1..], a, paused);
        assert forall i :: 0 < i < |mks| ==> mks[i] == mks[1..][i - 1];
      }
    }
  }

  /// A borrower who is not in a market enters it by the market's own call, when it is listed and entering not paused.
  lemma BorrowEnters(s: Lists, mk: MarketId, a: Account, fromMarket: bool, paused: bool)
    ensures BorrowHook(s, mk, a, fromMarket, paused).Done? <==>
      (mk in s.listed && ((mk, a) !in s.members ==> fromMarket && !paused))
    ensures BorrowHook(s, mk, a, fromMarket, paused).Done? ==>
      var s' := BorrowHook(s, mk, a, fromMarket, paused).value;
      && s'.members == s.members + {(mk, a)} && s'.listed == s.listed && s'.allMarkets == s.allMarkets
      && ListOf(s', a) == (if (mk, a) in s.members then ListOf(s, a) else ListOf(s, a) + [mk])
      && forall b | b != a :: ListOf(s', b) == ListOf(s, b)
  {
  }

  /// A market is supported exactly when it never was before, and is then listed.
  lemma SupportsOnce(s: Lists, mk: MarketId)
    ensures SupportMarket(s, mk).Done? <==> mk !in s.listed && mk !in s.allMarkets
    ensures SupportMarket(s, mk).Done? ==>
      SupportMarket(s, mk).value == s.(listed := s.listed + {mk}, allMarkets := s.allMarkets + [mk])
  {
  }

  lemma UnlistedStep(s: Lists, e: Event, mk: MarketId, a: Account)
    requires mk in s.allMarkets && mk !in s.listed && (mk, a) in s.members
    ensures var s' := After(s, e); mk in s'.allMarkets && mk !in s'.listed && (mk, a) in s'.members
  {
    if e.Enter? && Next(s, e).Done? {
      EnteringOnlyAdds(s, e.mks, e.account, e.pausedMarkets);
    }
  }

  lemma {:induction false} EnteringOnlyAdds(s: Lists, mks: seq<MarketId>, a: Account, paused: set<MarketId>)
    requires EnterMarkets(s, mks, a, paused).Done?
    ensures var s' := EnterMarkets(s, mks, a, paused).value;
      && s'.listed == s.listed && s'.allMarkets == s.allMarkets && s.members <= s'.members
      && (forall mk :: mk in mks ==> (mk, a) in s'.members)
      && (forall p :: p in s'.members ==> p in s.members || (p.1 == a && p.0 in mks))
    decreases |mks|
  {
    if |mks| > 0 {
      EnteringOnlyAdds(AddToMarket(s, mks[0], a, mks[0] in paused).value, mks[1..], a, paused);
      assert forall mk :: mk in mks <==> mk == mks[0] || mk in mks[1..];
    }
  }
}

# Venus Isolated Pools: a verified model

A Dafny model of the contracts of Venus Isolated Pools and of the script that deploys their rate models, with
proofs about whole runs: money is conserved, roundings add up to stated bounds, auctions end and always hold
what they owe. Arithmetic is the contracts' own: integer mantissas (1e18, and 1e36 for rewards) and division
that truncates toward zero.

| module | what it models |
|---|---|
| `FixedPoint`, `Totals`, `Outcomes` | truncating arithmetic, sums over mappings, calls that complete or revert |
| `Ledger`, `ExchangeRate`, `Borrowers`, `Operations`, `VTokenContract` | one VToken market: its ledger as a state machine, the supplier's and the borrower's side of it, each call's effect, and the contract as a class |
| `Auctions`, `AuctionLife`, `AuctionBids`, `AuctionLength`, `AuctionPause`, `AuctionEscrow`, `AuctionCredit`, `AuctionValue`, `AuctionEnds`, `AuctionExamples`, `ShortfallContract` | the bad debt auctions of many pools together with the markets that heals and auctions change, and the contract as a class |
| `Liquidity`, `Pools`, `Worth`, `SmallAccounts`, `Liquidations`, `AssetLists`, `PoolRuns`, `PoolCalls`, `CheckedCalls`, `ComptrollerContract` | account liquidity, healing and forced liquidation of small accounts, the lists of entered markets, runs of a whole pool, what the check before a call means after it, and the contract as a class |
| `Rewards`, `SupplierRewards`, `BorrowerRewards`, `BorrowerBlocks`, `UnhookedHeals`, `BorrowerExamples`, `Distributor`, `RewardRuns`, `RewardSteps`, `RewardClaims`, `RewardExamples` | lazily settled rewards against distributors that share out each block, what heals without a repayment do to them, the contract as a class, and runs of a whole pool whose users are all paid out of one balance |
| `RateModels` | jump and two-kinks borrow rates, the supply rate |
| `RateModelNames`, `NameRegistry`, `DeployVTokens` | the names of rate model contracts, the deployment loop that reuses by name, and the check after it |

Each contract is modelled twice: as functions on a value holding its storage, about which the lemmas speak, and
as a class whose methods change the fields step by step and are proved to do exactly what the functions say. A
call that reverts leaves everything as it was.

## What is assumed

- The rate an interest rate model answers, oracle prices, the time, what a token keeps of a transfer (any part
  of it) and whether it lets a transfer through are parameters of each call. So are the facts a call reads from
  contracts outside the model: whether access control allows it, whether a market's actions are paused.
- Callers are who they say they are; no call is re-entered.
- Numbers do not overflow: integers are unbounded. Underflow and division by zero revert as in Solidity.
- In `Auctions`, a pool's list of markets only grows, and a market belongs to one pool.
- A market's configured numbers stay within what its setters accept (`Ledger.AllowedSettings`).

## Where the code does not do what is said of it

The model follows the code. In these places a promise made for it fails; the model has an input or a run at which it
does, and the exact condition under which it holds.

- Repaying a borrow in full can revert, since the sum of balances can exceed `totalBorrows` by accumulated
  truncation: `Borrowers.FullRepaymentCanRevert` is a run from an empty market; `Borrowers.RepayInFull` says
  exactly when it goes through, `Borrowers.OthersMakeRoom` gives a condition on the other borrowers.
- Healing and forced liquidation are meant for disjoint cases, but both pass in a sliver that the percentage's 18
  digits do not resolve: `SmallAccounts.HealOrLiquidate` says exactly when, `SmallAccounts.BothMayPass` is an
  account of a pool.
- An account that passes the check before a redeem, a transfer or a borrow can have a shortfall right afterwards:
  `Liquidity.CheckedAccountMayLackOneUnit` is such a position. The check misses what two truncations carry over, and
  what a redeem adds by raising the exchange rate; `CheckedCalls.CheckedCallIsSafe` says of the call itself, in every
  reachable pool and from numbers known before it, exactly when the account is safe, and that one unit at most is
  missing.
- An auction is not over when its waiting time is: a due auction goes on taking bids, and each prolongs it.
  `AuctionExamples.DueAuctionIsProlonged` is a run, `AuctionLength.LateBidProlongs` says by how much, and
  `AuctionLength.AuctionEndsInTime` bounds the length of every auction on which no bid comes after it was due.
- The payout of an auction is a value in USD but is transferred as an amount of the base asset; the model keeps
  that. So not every due auction can be closed: `AuctionExamples.DueAuctionIsStuck` is a run, at a price of two, after
  which an auction that is led can neither be closed nor restarted whatever happens, unless the risk fund doubles. With
  the risk fund as it was at the start, an auction over a large debt closes exactly when the fund's value is no larger a
  number than its units, and one over a large fund exactly when the bid's part of the incentivised debt is
  (`AuctionEnds.PriceDecides`); and the winner gets the fund's very tokens exactly when value and units are the same
  number (`AuctionEnds.WinnerGetsFund`).
- If the base asset keeps a fee, a payout takes the fee out of what the contract holds for others:
  `AuctionExamples.LossyCloseIsInsolvent` is a run. A close keeps the contract solvent exactly when its slack covers
  the fee (`AuctionEscrow.CloseStaysSolvent`), and a run ends solvent exactly when in every token what was donated
  covers the fees (`AuctionEscrow.BalanceIsAccountedFor`).
- A rewards distributor that holds all it released may be unable to pay: totals of borrowers are truncated, so their
  shares can add up to more. `RewardExamples.ReleasedIsNotEnough` is a run in which a borrower accrues twice what was
  released and is paid nothing. A claim is paid exactly when what has accrued is held, for which holding what was
  released with the stated excess is enough (`RewardClaims.ClaimIsPaid`); without rewards for borrowers there is no
  excess (`RewardClaims.SuppliersWithinReleased`).
- A heal that asks for no repayment has no reward hook. The healed borrower forfeits for ever exactly what a claim
  just before would have paid, so nothing is lost exactly when that is nothing (`UnhookedHeals.HealForfeitsForEver`);
  and other borrowers gain exactly when rewards are pending and the normalised total falls
  (`UnhookedHeals.HealGivesToOthers`). `BorrowerExamples.HealTakesFromOneGivesToAnother` is a run in which one
  borrower gets twice its part and the other nothing. Without such heals every borrower gets at most its part of each
  block, up to a stated slack for accruals (`BorrowerBlocks.BorrowersWithinBlocks`).
- Two kinks never coincide in a deployed model (`RateModels.ConstructedModel`); that the two-kinks rate collapses
  to the jump rate is proved of the formula at coinciding kinks, and of deployed models whose second kink is out
  of reach or does not bend.
- The repository's README lets the pool's debt be compared with the risk fund plus the incentive; the code
  compares the debt plus the incentive with the risk fund. `AuctionLife.KindAgainstDescription` says on which debts and
  funds the two differ, equal ones among them.
- Rate model names tell models apart only in whole basis points: `RateModelNames.HalfBpsCollides`,
  `DeployVTokens.SecondMarketGetsFirstModel`, and `NameRegistry.ReuseIsRight` for the exact condition. The check
  after the deployment compares the rates of one slot, and finds such a market out when they differ.

## Model

| member | source | states |
|---|---|---|
| `ExchangeRate.StepKeeps` | contracts/VToken.sol:819-1505 | every call of a market keeps vTokens conserved, claims backed and snapshots in range, and does not lower the exchange rate |
| `ExchangeRate.RateNeverFalls` | contracts/VToken.sol:1646-1664 | over every run of all calls, as long as vTokens stay outstanding, the stored exchange rate never falls, through every truncation and transfer fee |
| `ExchangeRate.RateIsReadable` | contracts/VToken.sol:1646-1664 | in every state reached from deployment the exchange rate can be read: reserves never exceed cash, borrows and bad debt |
| `ExchangeRate.RedeemUnderlyingPays` | contracts/VToken.sol:951-985 | who redeems a named amount gets at least that, and at most one vToken's worth and one unit more |
| `ExchangeRate.AccrueKeeps` | contracts/VToken.sol:819-884 | accruing, with the reserves paid out on the way, keeps every vToken's claim backed |
| `ExchangeRate.SeizeKeeps` | contracts/VToken.sol:1263-1311 | seizing with a protocol share keeps tokens conserved and the remaining claims backed |
| `Operations.RateIsPart` | contracts/VToken.sol:1646-1664 | the stored rate is the initial one without vTokens, otherwise their part of cash, borrows and bad debt beyond the reserves, less than one unit down, and can always be read |
| `Operations.MintPasses` | contracts/VToken.sol:893-912 | a mint passes exactly in a market accrued to this slot with a rate that can be read and is not zero |
| `Operations.MintIsFair` | contracts/VToken.sol:893-941 | a minter gets the vTokens that what arrived is worth, less than one down, and nobody else is touched |
| `Operations.RedeemPasses` | contracts/VToken.sol:951-1003 | a redeem passes exactly in a market accrued to this slot when it names one of the two, pays something, cash beyond reserves has it, and the redeemer has the tokens |
| `Operations.TokensTaken` | contracts/VToken.sol:974-985 | redeeming an amount takes the most vTokens that are worth no more than it, and one more if they are worth less, except when they are worth less than one unit |
| `Operations.RedeemIsFair` | contracts/VToken.sol:951-1024 | a redeemer is paid the vTokens' worth, less than one unit down, never out of reserves |
| `Operations.BorrowAddsUp` | contracts/VToken.sol:1032-1079 | a borrow passes exactly in a market accrued to this slot when cash beyond reserves covers it, and raises one balance and the total alike |
| `Operations.RepayAddsUp` | contracts/VToken.sol:1088-1134 | a repayment passes exactly in a market accrued to this slot when what arrives is within `totalBorrows`, and lowers one balance and the total by it, at most what is owed |
| `Operations.SeizePasses` | contracts/VToken.sol:1263-1311 | a seizure passes exactly for somebody else's tokens, as many as there are, when the protocol's share fits in them and cash covers its worth |
| `Operations.SeizeSplits` | contracts/VToken.sol:1263-1311 | the borrower loses what liquidator and protocol get; the protocol's share and payout are bounded both ways |
| `Operations.AccrualAddsUp` | contracts/VToken.sol:819-884 | borrowers are charged the rate for the slots passed, less than one unit down, on borrows and index alike; reserves get their part of it; what is paid out comes from reserves only, when its time is over, and leaves no reserves or no cash |
| `Operations.AccrualPasses` | contracts/VToken.sol:819-884 | an accrual passes exactly for a rate within the limit and a later slot, does nothing in the same slot, and marks the slot as paid out exactly when the waiting time is over |
| `Operations.PayoutIsAll` | contracts/VToken.sol:866-881 | an accrual whose waiting time is over pays out all reserves, as far as there is cash |
| `Operations.ReservesGoOut` | contracts/VToken.sol:509-513 | where reserves went out already in this slot nothing happens; otherwise a withdrawal passes exactly when cash and reserves both have the amount, and lowers both by it and nothing else |
| `Operations.ReservesComeIn` | contracts/VToken.sol:1353-1374 | added reserves are what arrives, in cash and reserves, exactly in a market accrued to this slot |
| `Operations.RecoveryAddsUp` | contracts/VToken.sol:655-664 | bad debt is recovered exactly up to what there is, for as much cash |
| `Operations.TransferMoves` | contracts/VToken.sol:1487-1530 | a transfer passes exactly for two different accounts and enough tokens, and moves just them |
| `Borrowers.BalanceIsFloor` | contracts/VToken.sol:1622-1639 | a balance is the exact share of the index, truncated, and can always be read |
| `Borrowers.AccrualArithmetic` | contracts/VToken.sol:843-863 | one accrual, with its two truncations, widens the gap between debts and total by one index multiple at most |
| `Borrowers.DebtStep` | contracts/VToken.sol:555-602 | every call keeps all exact debts within `totalBorrows` plus the drift of the accruals so far |
| `Borrowers.OwedAtMostTotalBorrows` | contracts/VToken.sol:1088-1134 | over every run from deployment with any number of borrowers, the sum of balances exceeds `totalBorrows` by at most one unit per accrual times the index growth |
| `Borrowers.RepayInFull` | contracts/VToken.sol:1098-1125 | for any fee, offering the whole balance passes if and only if what arrives of it does not exceed `totalBorrows`; it clears just this borrower, exactly when the token keeps nothing |
| `Borrowers.HealInFull` | contracts/VToken.sol:564-599 | a write-off passes if and only if what arrives is at most the balance and that at most `totalBorrows`; repaid plus bad debt is the balance |
| `Borrowers.OthersMakeRoom` | contracts/VToken.sol:1115-1125 | in a reachable market a full repayment passes whenever the others owe at least the drift |
| `Borrowers.FullRepaymentCanRevert` | contracts/VToken.sol:1115-1125 | a run from an empty market after which the only borrower owes 2 and `totalBorrows` is 1, so that repaying reverts |
| `VTokenContract.VToken.AccrueInterest` | contracts/VToken.sol:819-884 | the method's new storage is the ledger's |
| `VTokenContract.VToken.ReduceReservesFresh` | contracts/VToken.sol:1376-1418 | the method's new storage is the ledger's |
| `VTokenContract.VToken.ReduceReserves` | contracts/VToken.sol:509-513 | accrues first, all or nothing; in a slot in which reserves went out, also on accruing, cash and reserves then stay; otherwise it passes exactly when both have the amount and lowers both by exactly it |
| `VTokenContract.VToken.AddReservesFresh` | contracts/VToken.sol:1353-1374 | the method's new storage is the ledger's |
| `VTokenContract.VToken.MintFresh` | contracts/VToken.sol:893-941 | the method's new storage is the ledger's |
| `VTokenContract.VToken.RedeemFresh` | contracts/VToken.sol:951-1024 | the method's new storage is the ledger's |
| `VTokenContract.VToken.TransferTokens` | contracts/VToken.sol:1487-1530 | the owner or a spender within the allowance, which is used up unless unlimited; otherwise the method's new storage is the ledger's |
| `VTokenContract.VToken.BorrowFresh` | contracts/VToken.sol:1032-1079 | the method's new storage is the ledger's |
| `VTokenContract.VToken.RepayBorrowFresh` | contracts/VToken.sol:1088-1134 | the method's new storage is the ledger's |
| `VTokenContract.VToken.HealBorrow` | contracts/VToken.sol:555-602 | the method's new storage is the ledger's |
| `VTokenContract.VToken.BadDebtRecovered` | contracts/VToken.sol:655-664 | the method's new storage is the ledger's |
| `VTokenContract.VToken.Seize` | contracts/VToken.sol:1263-1311 | the method's new storage is the ledger's |
| `VTokenContract.VToken.Mint` | contracts/VToken.sol:277-284 | accruing and minting are all or nothing, keep the invariant and do not lower the rate |
| `VTokenContract.VToken.RepayBorrow` | contracts/VToken.sol:417-422 | accruing and repaying are all or nothing, keep the invariant and do not lower the rate |
| `AuctionLife.TermsInRange` | contracts/Shortfall/Shortfall.sol:446-465 | the start bid is at most 10000 basis points because of the kind test, the kinds are decided exactly, and no more than the risk fund is seized |
| `AuctionLife.IncentiveBounds` | contracts/Shortfall/Shortfall.sol:450 | the incentivised debt is the debt times one plus the incentive, truncated |
| `AuctionLife.KindAgainstDescription` | contracts/Shortfall/Shortfall.sol:446-465 | where the description has the debt large the code agrees; it differs exactly where neither of debt and fund exceeds the other with the incentive |
| `AuctionLife.BidEffect` | contracts/Shortfall/Shortfall.sol:173-217 | an accepted bid leads with its own terms, and each market's escrow is what arrived, at most the recorded debt |
| `AuctionBids.BidPasses` | contracts/Shortfall/Shortfall.sol:173-217 | while solvent a bid passes exactly when it names the start of a started auction, somebody leads or the wait for the first bidder is not over, its basis points are in turn for the auction's kind, and its tokens come in |
| `AuctionBids.FirstBidWindow` | contracts/Shortfall/Shortfall.sol:173-189 | with nobody leading, up to the last slot of the wait every first bid in turn passes and a restart is refused; from the next slot on bids are refused as stale and a restart passes exactly for enough bad debt |
| `AuctionBids.TooEarly` | contracts/Shortfall/Shortfall.sol:224-302 | no restart of an auction that is led or still waits, no close of one that nobody leads or whose last bid may still be outbid, in any state |
| `AuctionBids.StartPasses` | contracts/Shortfall/Shortfall.sol:281-284 | an auction starts exactly when not paused, in a registered pool without a started one, for enough bad debt; and then nobody leads it |
| `AuctionBids.SettersPass` | contracts/Shortfall/Shortfall.sol:310-356 | the incentive and the wait for the next bidder can be set to anything but nothing, the minimum of bad debt and the wait for the first bidder to anything, and each setter changes only its own setting |
| `AuctionBids.FirstBidIsFair` | contracts/Shortfall/Shortfall.sol:451-456 | over a large debt the first bid is the part of the incentivised debt that the risk fund is worth, less than one basis point down |
| `AuctionBids.BidAsks` | contracts/Shortfall/Shortfall.sol:191-210 | a bid asks for its part of each market's debt, less than one unit down, or for all of it |
| `AuctionLife.PullAllEffect` | contracts/Shortfall/Shortfall.sol:191-210 | the loop of a bid escrows for each market what arrived for it and changes no other auction |
| `AuctionLife.CloseEffect` | contracts/Shortfall/Shortfall.sol:224-263 | each market receives what is reported to it as recovered, other markets do not change |
| `AuctionLife.RecoveredWithinBadDebt` | contracts/Shortfall/Shortfall.sol:243-248 | what a close reports is at most the bid, the recorded debt and the present bad debt, in every interleaving of heals and auctions |
| `AuctionLife.EventKeeps` | contracts/Shortfall/Shortfall.sol:166-479 | every call of the auctions or the markets keeps the auction invariant |
| `AuctionLife.RunKeeps` | contracts/Shortfall/Shortfall.sol:166-479 | so does every run |
| `AuctionLife.OldMarkersRejected` | contracts/Shortfall/Shortfall.sol:173-178 | once an auction has been started anew, bids naming an earlier start are rejected for ever |
| `AuctionLife.MarkersOnlyGrow` | contracts/Shortfall/Shortfall.sol:466-468 | over every run a pool's start marker only grows |
| `AuctionLife.BidImproves` | contracts/Shortfall/Shortfall.sol:181-189 | every bid strictly lowers the number of bids still possible, for both kinds |
| `AuctionLife.BidsAreFinite` | contracts/Shortfall/Shortfall.sol:179-189 | over every run one auction takes at most 10000 bids |
| `AuctionLife.RestartOrClose` | contracts/Shortfall/Shortfall.sol:227-302 | restart and close are never both open; once the waiting times are over, exactly one of stale and due holds |
| `AuctionLife.StaleRestarts` | contracts/Shortfall/Shortfall.sol:291-302 | with nobody leading and the wait for the first bidder over, a restart passes if and only if the bad debt reaches the minimum and debt and risk fund are not both zero |
| `AuctionEnds.EnoughTimeEnds` | contracts/Shortfall/Shortfall.sol:224-302 | once the waiting times are over and with well-behaved tokens, a started auction can be ended by exactly one of restart and close, if and only if: with nobody leading the bad debt reaches the minimum and debt and fund are not both nothing; with a leader the risk fund holds the payout |
| `AuctionEnds.PriceDecides` | contracts/Shortfall/Shortfall.sol:224-273 | from the start's price: over a large debt a due close passes if and only if the fund's value is no larger a number than its units, always at a price of at most one; over a large fund if and only if the bid's part of the incentivised debt is |
| `AuctionEnds.WinnerGetsFund` | contracts/Shortfall/Shortfall.sol:251-262 | the winner over a large debt is credited exactly the fund's value as base tokens, which is all of the fund if and only if its value is the same number as its units |
| `AuctionEnds.StuckForEver` | contracts/Shortfall/Shortfall.sol:224-302 | while the risk fund stays below the payout, no run whatever closes or restarts a led auction over a large debt |
| `AuctionExamples.DueAuctionIsStuck` | contracts/legacy/RiskFund/RiskFund.sol:211-220 | a run from deployment, at a price of two, to such an auction |
| `AuctionLength.AuctionEndsInTime` | contracts/Shortfall/Shortfall.sol:173-302 | with limits unchanged and no bid once it was due, an auction that is neither stale nor closable is no older than the wait for the first bidder and one wait for each bid, at most ten thousand |
| `AuctionLength.LateBidProlongs` | contracts/Shortfall/Shortfall.sol:173-230 | a bid accepted on a due auction keeps it from closing until the wait for the next bidder is over once more |
| `AuctionExamples.DueAuctionIsProlonged` | contracts/Shortfall/Shortfall.sol:173-230 | a run from deployment in which a due auction takes a bid and outlives the bound |
| `AuctionPause.PauseOnlyStopsStarts` | contracts/Shortfall/Shortfall.sol:379-397 | while paused every start and restart reverts, and every bid and close does exactly what it would do unpaused |
| `AuctionEscrow.BidSlack` | contracts/Shortfall/Shortfall.sol:191-210 | a bid leaves every token's balance beyond escrow and debts unchanged, fee or not, refund or recorded debt |
| `AuctionEscrow.CloseSlack` | contracts/Shortfall/Shortfall.sol:234-262 | a close empties the pool's escrow and loses only the base asset's fee |
| `AuctionEscrow.CloseStaysSolvent` | contracts/Shortfall/Shortfall.sol:251-262 | a close of a solvent contract leaves it solvent if and only if the base asset's slack covers what the base asset keeps of the payout |
| `AuctionEscrow.EventSlack` | contracts/Shortfall/Shortfall.sol:166-479 | what each call adds to a token's balance beyond escrow and debts |
| `AuctionEscrow.BalanceIsAccountedFor` | contracts/Shortfall/Shortfall.sol:166-273 | over every run from deployment each balance is the leading bids as they arrived, the debts to outbid bidders, and donations less fees; the contract is solvent if and only if in every token the donations cover the fees |
| `AuctionExamples.LossyCloseIsInsolvent` | contracts/Shortfall/Shortfall.sol:251-262 | a run from deployment after which, by one unit of fee, the contract holds less than it owes |
| `AuctionCredit.OutbidIsRefunded` | contracts/Shortfall/Shortfall.sol:196-198 | an out-bid credits the last bidder with exactly the recorded amounts in each token, and nobody else |
| `AuctionBids.TransferBooks` | contracts/lib/TokenDebtTracker.sol:112-135 | with the balance for it a transfer out always passes: let out, it is sent and leaves the balance; refused, it stays and is owed, singly and in all |
| `AuctionBids.OutbidIsBooked` | contracts/Shortfall/Shortfall.sol:191-210 | an accepted bid, in every token and for every account: the refunds that go out are sent and leave the balance, those that do not are owed and stay, and the new payments come in |
| `AuctionCredit.WinnerIsPaid` | contracts/Shortfall/Shortfall.sol:251-262 | a close credits the winner with the payout out of the pool's risk fund, and nobody else |
| `AuctionBids.WinnerIsBooked` | contracts/Shortfall/Shortfall.sol:234-262 | a close, in every token and for every account: the bids leave for the markets, and the payout goes out to the winner or is owed to the winner and stays |
| `AuctionCredit.RunDebts` | contracts/lib/TokenDebtTracker.sol:80-135 | over every run the total owed in a token is the sum of what each account is owed |
| `AuctionCredit.DebtCanBeClaimed` | contracts/lib/TokenDebtTracker.sol:80-93 | while solvent and with debts adding up, an outbid bidder can claim all that is owed, and then nothing is owed |
| `AuctionBids.ClaimPasses` | contracts/lib/TokenDebtTracker.sol:80-93 | a claim passes exactly for no more than is owed, singly and in all, and held, when the token lets it out |
| `AuctionBids.ClaimBooks` | contracts/lib/TokenDebtTracker.sol:80-93 | what is claimed is sent and leaves the balance and both debts, and nothing else changes |
| `AuctionExamples.RefusedRefundIsClaimed` | contracts/lib/TokenDebtTracker.sol:80-135 | a run from deployment in which a refund is refused, owed, and later claimed |
| `AuctionCredit.AcceptedBidSucceeds` | contracts/Shortfall/Shortfall.sol:173-217 | while solvent, a bid that is accepted and paid never fails on a refund |
| `AuctionCredit.DueAuctionCloses` | contracts/Shortfall/Shortfall.sol:224-273 | while solvent, a due auction closes if and only if its tokens go out, the risk fund covers the payout, and the base asset held besides its own bids makes up for the fee; recovering bad debt never fails |
| `AuctionValue.TermsStay` | contracts/Shortfall/Shortfall.sol:403-468 | as long as the start marker stays, terms and recorded debts stay |
| `AuctionValue.ExactDebtCovers` | contracts/Shortfall/Shortfall.sol:432-442 | the pool's computed bad debt is its exact value, less than one unit down for each market |
| `AuctionValue.WinnerCoversSeizedFund` | contracts/Shortfall/Shortfall.sol:450-456 | at any time after a start or restart, the leader's payment times one plus the incentive covers the seized risk fund, short of one basis point of the incentivised debt and a unit of each token |
| `AuctionValue.PayoutWithinDebt` | contracts/Shortfall/Shortfall.sol:251-257 | started or restarted, no auction pays a larger number than the incentivised debt or the risk fund's value at the start; over a large debt all of that value; over a large fund the whole debt is paid for the bid's part of the incentivised debt; in which tokens is AuctionEnds |
| `ShortfallContract.Shortfall.RecordDebts` | contracts/Shortfall/Shortfall.sol:432-442 | the loop adds up the pool's bad debt and records each market's |
| `ShortfallContract.Shortfall.StartAuction` | contracts/Shortfall/Shortfall.sol:281-284 | the method's new storage is the state machine's |
| `ShortfallContract.Shortfall.StartFresh` | contracts/Shortfall/Shortfall.sol:403-479 | the method's new storage is the state machine's |
| `ShortfallContract.Shortfall.RestartAuction` | contracts/Shortfall/Shortfall.sol:291-302 | the method's new storage is the state machine's |
| `ShortfallContract.Shortfall.PlaceBid` | contracts/Shortfall/Shortfall.sol:173-217 | the loop over markets does what the state machine says, all or nothing |
| `ShortfallContract.Shortfall.CloseAuction` | contracts/Shortfall/Shortfall.sol:224-273 | the loop over markets and the payout do what the state machine says, all or nothing |
| `ShortfallContract.Shortfall.TransferOutOrTrackDebt` | contracts/lib/TokenDebtTracker.sol:112-135 | the method's new storage is the state machine's, which is AuctionBids.TransferBooks |
| `ShortfallContract.Shortfall.ClaimTokenDebt` | contracts/lib/TokenDebtTracker.sol:80-93 | the method's new storage is the state machine's |
| `Liquidity.GetHypotheticalLiquiditySnapshot` | contracts/Comptroller.sol:1624-1689 | the loop computes sums within stated bounds of the exact worth of all positions, and their difference as liquidity or shortfall, or reports a missing price |
| `Liquidity.CollateralIsWorth` | contracts/Comptroller.sol:1648-1662 | over any list of positions the collateral is the exact sum of tokens, exchange rate and price, less the stated truncations |
| `Liquidity.WeightedIsWorth` | contracts/Comptroller.sol:1648-1662 | and with either weight the exact sum of weight, tokens, exchange rate and price |
| `Liquidity.BorrowsAreWorth` | contracts/Comptroller.sol:1664-1668 | and the borrows the exact sum of borrows and price |
| `Worth.SnapshotTellsWorth` | contracts/Comptroller.sol:1605-1689 | of every account over any list of markets, the snapshot tells what the pool's ledgers, prices and factors make of it |
| `Liquidity.BorrowingPowerProtects` | contracts/Comptroller.sol:1676-1686 | with factors in order, no shortfall of borrowing power means no liquidation shortfall, for any list of markets; liquidity and shortfall are never both positive |
| `Liquidity.CheckForesees` | contracts/Comptroller.sol:1664-1676 | with the market at any new exchange rate, the surplus after the change is the hypothetical surplus less the carries and with what the new rate adds, exactly; a carry is one where two truncated parts hide a unit |
| `Liquidity.SafeAfterwards` | contracts/Comptroller.sol:1664-1689 | under either weight there is no shortfall afterwards if and only if the surplus in the check, with what the new rate adds, covers the carries |
| `Liquidity.CheckedAccountIsSafe` | contracts/Comptroller.sol:625-635 | an account that passes the check is short of the thresholds afterwards if and only if its surplus under them, with what the new rate adds, does not cover the carries, and then by two units at most, one for a redeem or borrow alone |
| `Liquidity.CheckedAccountMayLackOneUnit` | contracts/Comptroller.sol:1661-1673 | one unit can be missing |
| `CheckedCalls.SupposedMoves` | contracts/VToken.sol:951-1079 | a redeem, transfer or borrow changes the account's tokens, borrow and exchange rate in its market to exactly what can be computed before it, and never lowers the rate while tokens are left |
| `CheckedCalls.CheckedCallIsSafe` | contracts/Comptroller.sol:481-635 | after any such call in any pool reached from deployment the account is without a shortfall if and only if the check's surplus with the rate's gain covers the carries; it lacks one unit at most; for non-members the call changes nothing |
| `SmallAccounts.HealOrLiquidate` | contracts/Comptroller.sol:878-954 | of any account exactly when heal and when liquidation lets it through: both need collateral within the minimum and a shortfall; of such accounts at least one passes, both in a stated sliver |
| `SmallAccounts.PercentageIs` | contracts/Comptroller.sol:893-900 | the healed percentage is the collateral over the incentivised debt, less than its last digit down, at most one |
| `SmallAccounts.HealedWasOpen` | contracts/Comptroller.sol:869-921 | who is healed was, once the markets had accrued, small, short and without collateral for the debt with the incentive; and who was is healed market by market |
| `SmallAccounts.HealMarketPasses` | contracts/Comptroller.sol:906-920 | one market is healed exactly when the tokens can be seized, and what arrives is within what is owed and that within `totalBorrows` |
| `SmallAccounts.BothMayPass` | contracts/Comptroller.sol:893-954 | the sliver is not empty: an account of a sound pool for which both checks pass |
| `SmallAccounts.HealSettles` | contracts/Comptroller.sol:869-921 | accruing and healing leave neither borrows nor vTokens; repaid plus new bad debt is the old borrow in each market; no bad debt at 100 percent; every market stays sound |
| `SmallAccounts.HealMarketEffect` | contracts/Comptroller.sol:906-920 | the same for one market, with every other borrower untouched |
| `SmallAccounts.HealerNeverOverpays` | contracts/Comptroller.sol:893-911 | payment times incentive is at most the collateral, one unit, and one incentivised unit for each market |
| `SmallAccounts.HealerPaysForCollateral` | contracts/Comptroller.sol:893-911 | and at least the collateral, short of one unit of each token and the percentage's last digit of the borrows |
| `SmallAccounts.FreshHealKeepsSound` | contracts/Comptroller.sol:906-920 | healing keeps every market's own invariant |
| `Liquidations.SeizedWithinIncentive` | contracts/Comptroller.sol:1385-1413 | seized collateral is worth at most the repayment with the incentive |
| `Liquidations.SeizedCoversRepayment` | contracts/Comptroller.sol:1385-1413 | and at least that, short of one vToken and the ratio's last digit |
| `Liquidations.OrderPasses` | contracts/VToken.sol:1146-1252 | an order passes exactly between listed markets that accrue, for another's borrow, for something and no more than is owed, when what arrives is within `totalBorrows` and its collateral can be seized in a market entered |
| `Liquidations.OrderMoves` | contracts/VToken.sol:1146-1311 | an order takes exactly the collateral computed for it, of a market the account has entered, from the account to liquidator and protocol, touches nobody else, writes nothing off, and keeps every market sound |
| `Liquidations.SeizureIsShared` | contracts/VToken.sol:1263-1311 | of what is seized the protocol keeps the part that the market's share is of the pool's present incentive, less than one vToken down, and the liquidator gets the rest; no other market changes |
| `Liquidations.OrderRepays` | contracts/VToken.sol:1146-1252 | an order lowers the borrow by exactly what arrived |
| `Liquidations.OrdersMove` | contracts/Comptroller.sol:957-976 | the same of any list of orders together, market by market |
| `Liquidations.OrdersWithinIncentive` | contracts/Comptroller.sol:957-976 | all collateral of any list of orders is worth at most what arrived with the incentive |
| `Liquidations.LiquidatedWasOpen` | contracts/Comptroller.sol:935-985 | an account is liquidated exactly when it is small, short and has collateral for more than the debt with the incentive, the orders pass, and nothing is owed afterwards |
| `Liquidations.LiquidationClears` | contracts/Comptroller.sol:935-985 | a forced liquidation, whatever its orders, moves collateral only from the account to liquidator and protocol, within the incentive on what arrived, writes nothing off, keeps every market sound and leaves nothing owed |
| `AssetLists.SwapAndPopRemoves` | contracts/Comptroller.sol:405-408 | swapping in the last entry and popping removes exactly the one entry |
| `AssetLists.ListsAgree` | contracts/Comptroller.sol:1508-1530 | over every run each list holds each market once and exactly the memberships; each market is supported once |
| `AssetLists.ReportIsListedMembership` | contracts/Comptroller.sol:1481-1501 | from the start the reported list is the memberships in listed markets, each once; unlisting changes no membership |
| `AssetLists.UnlistedMembersStay` | contracts/Comptroller.sol:1568-1573 | nobody can leave a market after it was unlisted |
| `AssetLists.EnteringOnlyAdds` | contracts/Comptroller.sol:232-244 | entering adds exactly the markets named |
| `AssetLists.EnteringPasses` | contracts/Comptroller.sol:232-244 | markets are entered together exactly when each is listed and not paused for entering |
| `AssetLists.BorrowEnters` | contracts/Comptroller.sol:601-613 | a borrower is entered exactly by the market's own call, for a listed market not paused for entering, at the end of its list |
| `AssetLists.SupportsOnce` | contracts/Comptroller.sol:1095-1118 | a market is supported exactly when it never was before |
| `AssetLists.UnlistsWhenShutDown` | contracts/Comptroller.sol:263-324 | unlisting passes if and only if the market is listed, all its actions are paused, and its caps and collateral factor are zero |
| `AssetLists.ExitKeeps` | contracts/Comptroller.sol:365-413 | leaving a market passes if and only if it is not paused, nothing is owed, it is listed, and for a member the redeem check passes; lists and memberships still agree |
| `PoolRuns.RunKeepsValid` | contracts/Comptroller.sol:232-1118 | over every run of users, governance and markets: lists and memberships agree, every market is sound, and every collateral factor is at most its threshold and that at most one |
| `PoolRuns.PositionsInOrder` | contracts/Comptroller.sol:1020-1064 | so every account's positions are distinct markets with factors in order |
| `PoolRuns.HookPasses` | contracts/Comptroller.sol:427-860 | what the comptroller lets through, action by action: pausing, listing, membership and the liquidity check, both ways |
| `PoolRuns.BorrowHookPasses` | contracts/Comptroller.sol:601-660 | and a borrow: of a listed market with a price, by who is in it or enters it and can carry the borrow |
| `PoolCalls.MintGoesThrough` | contracts/VToken.sol:893-941 | a mint of a pool's user goes through exactly when minting is not paused, in a listed market accrued to this slot, with a rate; nothing else in the pool changes |
| `PoolCalls.RedeemGoesThrough` | contracts/VToken.sol:951-1024 | a redeem exactly when redeeming is not paused, it names one of vTokens and amount, the holder may give up the vTokens it takes and has them, they are worth something, and cash beyond the reserves covers that, in a market accrued to this slot |
| `PoolCalls.BorrowGoesThrough` | contracts/VToken.sol:1032-1079 | a borrow exactly when borrowing is not paused, in a listed market with a price accrued to this slot, the borrower is in the market or may enter it, may suppose the borrow then, and cash beyond the reserves covers it; the borrower is in the market afterwards |
| `PoolCalls.RepayGoesThrough` | contracts/VToken.sol:1088-1134 | a repayment exactly when repaying is not paused, in a listed market accrued to this slot, and what arrives is within `totalBorrows` |
| `PoolCalls.TransferGoesThrough` | contracts/VToken.sol:1487-1530 | a transfer exactly when transfers are not paused, in a listed market, the sender may give up the tokens and has them, and does not send to itself |
| `PoolCalls.SeizureGoesThrough` | contracts/VToken.sol:1263-1311 | a seizure exactly when seizing is not paused, in a listed market that the borrower has entered, for somebody else's tokens, as many as there are, whose protocol share can be paid out |
| `PoolCalls.OnlyEnteredIsSeized` | contracts/Comptroller.sol:935-985 | orders of a liquidation that went through were of listed markets, for collateral in a market that the account had entered |
| `PoolRuns.PreLiquidatePasses` | contracts/Comptroller.sol:714-765 | the liquidation of a single borrow passes exactly where forced up to what is owed, elsewhere for more than the minimum of collateral in shortfall up to the close factor's part |
| `PoolRuns.FactorsAreSet` | contracts/Comptroller.sol:1020-1064 | the two factors of a listed market can be set exactly within their limits, a collateral factor only where there is a price, and for this market only |
| `PoolRuns.SupportedAtZero` | contracts/Comptroller.sol:1095-1118 | a market is supported exactly when it never was before, at the end of the list and with both factors at zero whatever they were; other markets keep theirs |
| `PoolRuns.TermsAreSet` | contracts/Comptroller.sol:1073-1090 | any price and minimum, and exactly an incentive of at least one |
| `PoolRuns.BorrowingPowerProtectsEveryone` | contracts/Comptroller.sol:714-765 | in every pool reached from deployment an account without a shortfall of borrowing power is open to neither healing nor liquidation, but for a borrow whose market has forced liquidation switched on, and then exactly up to the borrow |
| `ComptrollerContract.Comptroller.AddToMarket` | contracts/Comptroller.sol:1508-1530 | the method's new lists are the model's |
| `ComptrollerContract.Comptroller.EnterMarkets` | contracts/Comptroller.sol:232-244 | all markets are entered or none, and lists and memberships still agree |
| `ComptrollerContract.Comptroller.ExitMarket` | contracts/Comptroller.sol:365-413 | the redeem check is computed from the account's positions, the search finds the entry, the assertion never fails, and everything stays valid |
| `ComptrollerContract.Comptroller.UnlistMarket` | contracts/Comptroller.sol:263-324 | the tests in the source's order; exactly a listed market that is shut down is unlisted |
| `ComptrollerContract.Comptroller.SupportMarket` | contracts/Comptroller.sol:1095-1118 | a market is added at most once, by the search through all markets, with both factors at zero |
| `ComptrollerContract.Comptroller.GetAssetsIn` | contracts/Comptroller.sol:1481-1501 | the loop filters the list by listed markets |
| `ComptrollerContract.Comptroller.CheckRedeemAllowed` | contracts/Comptroller.sol:1568-1595 | passes exactly for a listed market, and for members when all prices are there and the surplus of borrowing power, which tells the account's worth, covers the redeem |
| `ComptrollerContract.Comptroller.GetAccountLiquidity` | contracts/Comptroller.sol:1296-1318 | both snapshots tell the account's exact worth within stated bounds; borrowing power never exceeds account liquidity, and of liquidity and shortfall one is zero |
| `ComptrollerContract.Comptroller.SetCollateralFactor` | contracts/Comptroller.sol:1020-1064 | accepted exactly within the limits, and keeps every factor at most its threshold and that at most one |
| `ComptrollerContract.Comptroller.HealAccount` | contracts/Comptroller.sol:869-921 | accrues and heals all or nothing, only an account that was small and short, leaves it clear in every market it is in, and keeps everything valid |
| `ComptrollerContract.Comptroller.LiquidateAccount` | contracts/Comptroller.sol:935-985 | only an account that is small, short and has collateral for the debt; the orders of listed markets in turn, all or nothing, with the final check, and everything stays valid |
| `SupplierRewards.RefinesNext` | contracts/Rewards/RewardsDistributor.sol:481-611 | every event keeps each user at or below the eager amount and within the slack of it |
| `SupplierRewards.LazyRefinesEager` | contracts/Rewards/RewardsDistributor.sol:481-611 | over every run a supplier's rewards are at most the eager amount, short of it by one unit per settlement and 1e-36 per token per updated block |
| `SupplierRewards.NeverMoreThanReleased` | contracts/Rewards/RewardsDistributor.sol:572-611 | over every run all suppliers together get at most what was released; at constant speed, speed times rewarded blocks |
| `SupplierRewards.NothingReverts` | contracts/Rewards/RewardsDistributor.sol:493-596 | in reachable states no index update or settlement underflows |
| `SupplierRewards.RewardsFlow` | contracts/Rewards/RewardsDistributor.sol:572-590 | rewards flow in a block exactly when no last rewarding block is set or it has not passed |
| `SupplierRewards.LastIsSet` | contracts/Rewards/RewardsDistributor.sol:359-391 | the last rewarding block is set exactly to a later one while a present one has not passed |
| `BorrowerRewards.UnitsBound` | contracts/Rewards/RewardsDistributor.sol:538 | a borrower's normalised balance is the exact share less at most two units, whatever interest accrued |
| `BorrowerRewards.SharesTotal` | contracts/Rewards/RewardsDistributor.sol:657 | exact shares exceed the normalised total by at most one unit per accrual, and one |
| `BorrowerRewards.BorrowersNeverGetMore` | contracts/Rewards/RewardsDistributor.sol:518-549 | over every run, also with heals, a borrower gets at most the exact share of every index update as the contract makes it, short of it by a stated amount per settlement and unhooked heal |
| `BorrowerRewards.BorrowersWithinReleased` | contracts/Rewards/RewardsDistributor.sol:629-675 | over every run all borrowers together get at most what was released, and a stated excess for truncated totals, which RewardExamples.ReleasedIsNotEnough shows to occur |
| `BorrowerRewards.BorrowersCeiling` | contracts/Rewards/RewardsDistributor.sol:629-675 | so at most (least + accruals + 1) / least of what was released |
| `BorrowerBlocks.AccrualMovesTotal` | contracts/Rewards/RewardsDistributor.sol:657 | an accrual lowers the normalised total by at most one, through both its truncations |
| `BorrowerBlocks.AccrualMovesRatio` | contracts/Rewards/RewardsDistributor.sol:657 | and raises the untruncated total by at most its 1e18th part |
| `BorrowerBlocks.BorrowersWithinBlocks` | contracts/Rewards/RewardsDistributor.sol:518-680 | over every run of market and distributor in which no heal without a repayment lowers the total while rewards are pending, a borrower gets at most its part of every rewarded block, by that block's total less one per accrual before the next update; where updates follow without accruals, its part of every block exactly |
| `BorrowerBlocks.BorrowersCloseToBlocks` | contracts/Rewards/RewardsDistributor.sol:518-680 | over every run, what was received, is due and is pending comes to the part of every block by its exact total, risen by its 1e18th part per accrual, but for a stated loss at each update, settlement and unhooked heal |
| `BorrowerBlocks.BlocksBracketed` | contracts/Rewards/RewardsDistributor.sol:629-680 | the two bounds enclose the distributor that splits every block by that block's normalised total |
| `UnhookedHeals.HealForfeitsForEver` | contracts/VToken.sol:555-602 | whatever happens after a heal without a repayment, the healed account has received less by exactly what a claim just before would have paid; nothing is lost if and only if its units times the index growth are less than one reward |
| `UnhookedHeals.RepayingHealPays` | contracts/VToken.sol:555-558 | a heal with a repayment pays what a claim would have paid |
| `UnhookedHeals.HealGivesToOthers` | contracts/Rewards/RewardsDistributor.sol:629-680 | another borrower gains from a heal without a repayment if and only if rewards are pending, it has a share, and the total they are split by falls |
| `BorrowerExamples.HealTakesFromOneGivesToAnother` | contracts/VToken.sol:555-602 | a run from deployment after which one of two equal borrowers has received 20 where its part of the blocks is 10, and the other nothing |
| `Distributor.SettlingAgainAddsNothing` | contracts/Rewards/RewardsDistributor.sol:341-350 | claiming markets again in a block, in any order and repetition, adds nothing |
| `Distributor.SupplySideUpdates` | contracts/Rewards/RewardsDistributor.sol:572-611 | one market's part of the contract is the model `SupplierRewards` speaks about: index updates |
| `Distributor.SupplySideSettles` | contracts/Rewards/RewardsDistributor.sol:481-508 | and settlements |
| `Distributor.BorrowSideUpdates` | contracts/Rewards/RewardsDistributor.sol:629-675 | one market's borrow side of the contract is the model BorrowerRewards speaks about: index updates |
| `Distributor.BorrowSideSettles` | contracts/Rewards/RewardsDistributor.sol:518-549 | and settlements |
| `RewardSteps.EventKeeps` | contracts/Rewards/RewardsDistributor.sol:336-675 | every event of a whole pool, on both sides of all markets, raises what is accrued, paid and due by no more than what it releases with its excess |
| `RewardClaims.ReceivedWithinReleased` | contracts/Rewards/RewardsDistributor.sol:336-675 | over every run from deployment all users of all markets together have accrued and been paid at most what all sides released and the borrow sides' excess |
| `RewardClaims.ClaimIsPaid` | contracts/Rewards/RewardsDistributor.sol:336-566 | in every reachable state a claim reverts exactly for an unlisted market and pays all that has accrued if and only if it is held, else nothing; it is held whenever the balance and payments so far cover what was released with the excess |
| `RewardClaims.SuppliersWithinReleased` | contracts/Rewards/RewardsDistributor.sol:481-611 | without rewards for borrowers the suppliers of all markets never get more than was released, and funding that pays every claim |
| `RewardClaims.SupplyHooksAgree` | contracts/Comptroller.sol:427-500 | in a whole pool a call's hooks do to its market's suppliers what the single-market model does |
| `RewardClaims.BorrowHooksAgree` | contracts/Comptroller.sol:601-700 | and to its borrowers |
| `RewardClaims.SpeedChangeReleases` | contracts/Rewards/RewardsDistributor.sol:449-474 | a side whose speed changes has first released what was pending at the speed so far |
| `RewardClaims.LastsAreSet` | contracts/Rewards/RewardsDistributor.sol:359-391 | the last rewarding blocks of a market are set for both sides, each its own, or for neither |
| `RewardExamples.ReleasedIsNotEnough` | contracts/Rewards/RewardsDistributor.sol:629-675 | a run from deployment in which ten are released and held, twenty accrue to the only borrower, and the claim pays nothing |
| `Distributor.RewardsDistributor.InitializeMarket` | contracts/Rewards/RewardsDistributor.sol:687-708 | both sides' blocks are this one, an index that was set is kept and one that was not is 1e36, and last rewarding blocks are kept |
| `Distributor.RewardsDistributor.UpdateRewardTokenSupplyIndex` | contracts/Rewards/RewardsDistributor.sol:572-619 | the method's new books are the model's |
| `Distributor.RewardsDistributor.UpdateRewardTokenBorrowIndex` | contracts/Rewards/RewardsDistributor.sol:629-680 | the method's new books are the model's |
| `Distributor.RewardsDistributor.DistributeSupplierRewardToken` | contracts/Rewards/RewardsDistributor.sol:481-508 | the method's new books are the model's |
| `Distributor.RewardsDistributor.DistributeBorrowerRewardToken` | contracts/Rewards/RewardsDistributor.sol:518-549 | the method's new books are the model's |
| `Distributor.RewardsDistributor.ClaimRewardToken` | contracts/Rewards/RewardsDistributor.sol:336-352 | the loop settles each market and pays all or nothing |
| `Distributor.RewardsDistributor.SetRewardTokenSpeed` | contracts/Rewards/RewardsDistributor.sol:449-474 | a side whose speed changes is first brought up to date |
| `Distributor.RewardsDistributor.SetLastRewardingBlock` | contracts/Rewards/RewardsDistributor.sol:359-391 | both sides' last blocks are set, or neither |
| `RateModels.UtilizationInRange` | contracts/JumpRateModelV2.sol:153-171 | utilization is at most one, and is one exactly when cash does not exceed reserves |
| `RateModels.UtilizationPasses` | contracts/JumpRateModelV2.sol:153-171 | utilization is zero when nothing is owed, and otherwise computable exactly when what is there exceeds the reserves |
| `RateModels.UtilizationIsFraction` | contracts/JumpRateModelV2.sol:153-171 | below full utilization it is what is owed over what is there, truncated, bounded both ways |
| `RateModels.JumpRateMonotone` | contracts/JumpRateModelV2.sol:202-220 | the jump rate never falls with utilization, also across the kink |
| `RateModels.ConstructedModel` | contracts/TwoKinksInterestRateModel.sol:87-121 | a model is built exactly for non-negative bases and strictly ordered positive kinks |
| `RateModels.RateFollowsLine` | contracts/TwoKinksInterestRateModel.sol:202-236 | for any signed parameters the rate before the cap follows one line with two bends and a step, to within one truncation for each stretch |
| `RateModels.TwoKinksMonotone` | contracts/TwoKinksInterestRateModel.sol:202-236 | with non-negative slopes the rate never falls, also across both kinks |
| `RateModels.SlopesDecide` | contracts/TwoKinksInterestRateModel.sol:202-240 | on each of the three stretches the rate falls with utilization where the slope is negative and rises where it is positive |
| `RateModels.FallingRateIsCapped` | contracts/TwoKinksInterestRateModel.sol:238-240 | for any parameters the rate is zero where the line is three units below zero and uncapped where it is three above; and there are models it happens to |
| `RateModels.CoincidingKinksCollapse` | contracts/TwoKinksInterestRateModel.sol:202-236 | at coinciding kinks and a second base of zero the formula is exactly the jump rate |
| `RateModels.CollapsesToJump` | contracts/TwoKinksInterestRateModel.sol:202-236 | with the second kink beyond full utilization the two models agree exactly |
| `RateModels.StraightKinkIsAlmostJump` | contracts/TwoKinksInterestRateModel.sol:202-236 | with a second kink that does not bend they agree to one unit |
| `RateModels.SuppliersNeverPromisedMore` | contracts/JumpRateModelV2.sol:130-150 | supply rate times the suppliers' claim is at most the borrowers' interest without the reserves' part, through all truncations |
| `RateModels.SuppliersPromisedEnough` | contracts/JumpRateModelV2.sol:130-150 | nor much less: short by one unit on the claim and one on the borrows |
| `RateModels.SupplyRatePasses` | contracts/JumpRateModelV2.sol:130-150 | the supply rate is computable exactly for a reserve factor of at most one when what is there exceeds the reserves |
| `RateModels.PromiseIsKept` | contracts/VToken.sol:771-780 | what the supply rate promises over some slots is what accruing them adds to the claim, or at most one unit more |
| `RateModels.YearOfSlots` | contracts/JumpRateModelV2.sol:180-220 | a year of slots at the rate of one slot is the rate of the yearly parameters, less at most five units for each slot |
| `RateModels.TwoKinksYear` | contracts/TwoKinksInterestRateModel.sol:87-121 | a year of slots at a deployed two-kinks model's raw rate of one slot follows the line of its yearly parameters, to within six units for each slot |
| `RateModels.JumpRateModelV2.UpdateJumpRateModel` | contracts/JumpRateModelV2.sol:88-101 | only who is allowed to changes the parameters, and then at every utilization a year at the new rate comes to the yearly rate asked for, less at most five units for each slot |
| `RateModels.JumpRateModelV2.GetBorrowRate` | contracts/JumpRateModelV2.sol:112-119 | the jump rate at the market's utilization |
| `RateModelNames.NamesRead` | helpers/rateModelHelpers.ts:89-100 | the names of white paper and jump rate models: the model, its parameters in basis points in their order, and the time base |
| `RateModelNames.TwoKinksNamesRead` | helpers/rateModelHelpers.ts:101-112 | the same of a model with two kinks and its seven parameters |
| `RateModelNames.PrintInjective` | helpers/rateModelHelpers.ts:8-10 | printed numbers decode uniquely, also negative ones |
| `RateModelNames.FieldsDecode` | helpers/rateModelHelpers.ts:94-111 | the printed fields decode uniquely, whatever follows them |
| `RateModelNames.NamesDecode` | helpers/rateModelHelpers.ts:82-114 | two names are equal if and only if model, time base and all basis points are |
| `RateModelNames.WholeNamesAreUnique` | helpers/rateModelHelpers.ts:89-114 | in whole basis points a name stands for one model |
| `RateModelNames.HalfBpsCollides` | helpers/rateModelHelpers.ts:8-10 | two models half a basis point apart have one name |
| `NameRegistry.ItemsTraced` | deploy/009-deploy-vtokens.ts:82-136 | what is registered under a name was there before or is the model of some market of that name |
| `NameRegistry.ReuseIsRight` | deploy/009-deploy-vtokens.ts:82-174 | every new market gets exactly its configured model if and only if the names tell the models apart |
| `DeployVTokens.Deploy` | deploy/009-deploy-vtokens.ts:63-177 | the nested loop deploys the markets of all pools in turn, reusing by name, and stops at an unsupported model |
| `DeployVTokens.LoopDeploys` | helpers/rateModelHelpers.ts:41-80 | the loop fails exactly on an unsupported model and otherwise deploys every item in turn |
| `DeployVTokens.JumpRateCharged` | helpers/rateModelHelpers.ts:41-80 | a market configured with the jump rate charges over a year its base rate, its multiplier up to the kink and its jump multiplier beyond, within stated units |
| `DeployVTokens.TwoKinksCharged` | deploy/009-deploy-vtokens.ts:114-133 | and one with two kinks its five rates over the stretches of its two kinks |
| `DeployVTokens.ConfiguredKinds` | helpers/rateModelHelpers.ts:41-80 | a white paper model is deployed with its base rate and multiplier, and a configuration is supported exactly when it names one of the three models |
| `DeployVTokens.WholeBpsDeploys` | deploy/009-deploy-vtokens.ts:82-174 | in whole basis points every new market gets its configured model, and the registry stays honestly named |
| `DeployVTokens.SecondMarketGetsFirstModel` | deploy/009-deploy-vtokens.ts:82-112 | otherwise the second market can get the first one's model |
| `DeployVTokens.CheckRateModels` | deploy/999-checks/001-check-rate-models.ts:136-160 | the loop passes if and only if every market's rates of one slot are the configured ones divided by the slots, and its kinks the configured ones |
| `DeployVTokens.WholeBpsPassTheCheck` | deploy/999-checks/001-check-rate-models.ts:27-160 | after a deployment in whole basis points the check passes for every market |
| `DeployVTokens.CheckFindsOut` | deploy/999-checks/001-check-rate-models.ts:43-57 | a market with another's rate model fails the check when a yearly rate differs by a unit per slot, and passes when the rates of one slot agree |

## Left out

- Integer widths: 256-bit overflow, and the 224-bit index and 32-bit block checks of the rewards distributor.
- Events, gas, loop limits, proxies and initialisers.
- Access control, pause flags, supply and borrow caps beyond the branch they decide; they are parameters or left out.
- Price oracles: prices are parameters; that they do not change between two reads of one call is assumed.
- The price updates at the head of healAccount and liquidateAccount: prices are parameters.
- Prime, contributor rewards, granting by the owner, sweeping tokens, delegates; approve and its variants, which only write an allowance.
- PoolRegistry, PoolLens, gateways, the risk fund's swaps; only the reserve a pool has in the risk fund is kept.
- liquidateBorrow of a single borrow: whether the comptroller lets it through is modelled (`PoolRuns.PreLiquidate`), its execution only in the forced form inside liquidateAccount.
- The white paper rate model's own formula; its name and deployment are modelled.
- The filter in front of the deployment loop that drops pools already registered.
- Transfers to the contract's own address.
- Of the external calls that accrue first only mint, repayBorrow and reduceReserves are spelt out; the others differ in the fresh operation alone.
- ComptrollerContract.Comptroller.SupportMarket: does not start the rewards of the new market; `Distributor.RewardsDistributor.InitializeMarket` is that call.

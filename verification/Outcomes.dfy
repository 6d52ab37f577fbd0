/** What a contract call does: it completes with a value, or reverts and leaves everything as it was. */
module Outcomes {

  datatype Error =
    | Panic // arithmetic underflow or division by zero
    | BorrowRateAbsurdlyHigh
    | FreshnessCheck
    | OneOfRedeemInputsMustBeZero
    | RedeemAmountIsZero
    | RedeemTransferOutNotPossible
    | BorrowCashNotAvailable
    | ReduceReservesCashNotAvailable
    | ReduceReservesCashValidation
    | LiquidatorIsBorrower
    | TransferNotAllowed
    | TransferOutFailed
    | MoreThanBadDebtRecovered
    | MarketNotListed
    | MarketNotCollateral
    | RewardsLocked
    | AuctionsPaused
    | AuctionsNotPaused
    | ZeroNotAllowed
    | Unauthorized
    | AuctionOngoing
    | NoOngoingAuction
    | AuctionRestarted
    | AuctionStale
    | AuctionNotStale
    | BidOutOfRange
    | BidNotBetter
    | WaitingForNextBidder
    | PoolNotRegistered
    | PoolBadDebtTooLow
    | InsufficientBalance
    | InsufficientDebt
    | InsufficientReserve
    | PriceError
    | CollateralExceedsThreshold
    | InsufficientShortfall
    | MinimalCollateralViolated
    | InsufficientCollateral
    | InsufficientLiquidity
    | NonzeroBorrowBalance
    | NotFullyPaid
    | IncentiveTooLow
    | TooMuchRepay
    | SeizeTooMuch
    | CloseAmountIsZero
    | ActionPaused
    | MarketAlreadyListed
    | ActionNotPaused
    | BorrowCapIsNotZero
    | SupplyCapIsNotZero
    | CollateralFactorIsNotZero
    | UnsupportedRateModel
    | InvalidCollateralFactor
    | InvalidLiquidationThreshold

  datatype Outcome<+T> = Done(value: T) | Revert(error: Error)
}

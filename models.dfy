/** The order and escrow data model shared by client and resolver. Amounts,
    deposits, time-lock offsets and timestamps are JavaScript `bigint`s, so
    they are unbounded integers here. JavaScript `number` fields (auction
    point delays and coefficients, the initial rate bump) are carried as
    `real` and only ever copied. An optional property is an `Option`. */
module Models {
  import opened Wrappers
  import opened Chain

  /** Seven delays, in seconds, from the escrow's `deployedAt`. */
  datatype TimeLocks = TimeLocks(
    srcWithdrawal: int,
    srcPublicWithdrawal: int,
    srcCancellation: int,
    srcPublicCancellation: int,
    dstWithdrawal: int,
    dstPublicWithdrawal: int,
    dstCancellation: int)

  /** An asset: a token address and, for multi-asset standards, a token id. */
  datatype Asset = Asset(address: string, tokenId: Option<string>)

  /** `receiver` is declared as a required string, but the DTO mapper copies
      an absent wire value into it, so the model keeps it optional. */
  datatype CrossChainOrderInfo = CrossChainOrderInfo(
    makerAsset: Asset,
    takerAsset: Asset,
    makingAmount: int,
    takingAmount: int,
    maker: string,
    salt: Option<int>,
    receiver: Option<string>)

  datatype EscrowParams = EscrowParams(
    hashLock: string,
    srcChainId: ChainId,
    dstChainId: ChainId,
    srcSafetyDeposit: int,
    dstSafetyDeposit: int,
    timeLocks: TimeLocks)

  datatype AuctionPoint = AuctionPoint(delay: real, coefficient: real)

  datatype AuctionGasCostInfo = AuctionGasCostInfo(gasBumpEstimate: int, gasPriceEstimate: int)

  datatype AuctionDetails = AuctionDetails(
    startTime: int,
    initialRateBump: real,
    duration: int,
    points: seq<AuctionPoint>,
    gasCost: Option<AuctionGasCostInfo>)

  datatype IntegratorFee = IntegratorFee(ratio: int, receiver: string)

  datatype AuctionWhitelistItem = AuctionWhitelistItem(address: string, allowFrom: int)

  datatype Fees = Fees(integratorFee: Option<IntegratorFee>, bankFee: Option<int>)

  datatype Details = Details(
    auction: AuctionDetails,
    fees: Option<Fees>,
    whitelist: seq<AuctionWhitelistItem>,
    resolvingStartTime: Option<int>)

  datatype CrossChainOrderExtra = CrossChainOrderExtra(
    nonce: Option<int>,
    permit: Option<string>,
    orderExpirationDelay: Option<int>,
    enablePermit2: Option<bool>,
    source: Option<string>,
    allowMultipleFills: Option<bool>,
    allowPartialFills: Option<bool>)

  datatype CrossChainOrder = CrossChainOrder(
    escrowFactory: string,
    orderInfo: CrossChainOrderInfo,
    escrowParams: EscrowParams,
    details: Details,
    extra: CrossChainOrderExtra)

  datatype SignedCrossChainOrder = SignedCrossChainOrder(
    order: CrossChainOrder,
    signature: string,
    orderHash: string)

  /** `TimeLocks & { deployedAt?: bigint }`: the offsets plus the anchor they
      are relative to, which only an escrow's immutables carry. */
  datatype ImmutablesTimeLocks = ImmutablesTimeLocks(offsets: TimeLocks, deployedAt: Option<int>)

  datatype Immutables = Immutables(
    orderHash: string,
    hashLock: string,
    maker: string,
    taker: string,
    token: string,
    tokenId: Option<string>,
    amount: int,
    safetyDeposit: int,
    timeLocks: ImmutablesTimeLocks)

  /** Source phases follow each other: finality lock, private withdrawal,
      public withdrawal, private cancellation, public cancellation. */
  predicate SrcPhasesOrdered(t: TimeLocks)
  {
    0 <= t.srcWithdrawal <= t.srcPublicWithdrawal <= t.srcCancellation <= t.srcPublicCancellation
  }

  /** Destination phases: finality lock, private withdrawal, public
      withdrawal, private cancellation. */
  predicate DstPhasesOrdered(t: TimeLocks)
  {
    0 <= t.dstWithdrawal <= t.dstPublicWithdrawal <= t.dstCancellation
  }

  predicate TimeLocksWellFormed(t: TimeLocks)
  {
    SrcPhasesOrdered(t) && DstPhasesOrdered(t)
  }

  const NonceLimit: int := 0x100_0000_0000

  /** The nonce, when present, fits in 40 bits. */
  predicate NonceWellFormed(extra: CrossChainOrderExtra)
  {
    extra.nonce.Some? ==> 0 <= extra.nonce.value < NonceLimit
  }

  predicate OrderWellFormed(order: CrossChainOrder)
  {
    TimeLocksWellFormed(order.escrowParams.timeLocks) && NonceWellFormed(order.extra)
  }

  /** The absolute time, in seconds, at which one offset's phase starts. */
  function PhaseStart(timeLocks: ImmutablesTimeLocks, offset: int): (r: Option<int>)
    ensures r.Some? <==> timeLocks.deployedAt.Some?
    ensures r.Some? ==> r.value - offset == timeLocks.deployedAt.value
  {
    match timeLocks.deployedAt
    case None => None
    case Some(d) => Some(d + offset)
  }

  /** The client's default time-lock policy. */
  const DefaultTimeLocks: TimeLocks := TimeLocks(0, 120, 121, 122, 0, 100, 101)

  lemma DefaultTimeLocksWellFormed()
    ensures TimeLocksWellFormed(DefaultTimeLocks)
    ensures DefaultTimeLocks.srcWithdrawal < DefaultTimeLocks.srcPublicWithdrawal
      < DefaultTimeLocks.srcCancellation < DefaultTimeLocks.srcPublicCancellation
    ensures DefaultTimeLocks.dstWithdrawal < DefaultTimeLocks.dstPublicWithdrawal
      < DefaultTimeLocks.dstCancellation
  {
  }

  /** Ordered offsets give ordered absolute phase starts, whatever the anchor. */
  lemma PhaseStartsOrdered(timeLocks: ImmutablesTimeLocks)
    requires timeLocks.deployedAt.Some? && TimeLocksWellFormed(timeLocks.offsets)
    ensures PhaseStart(timeLocks, timeLocks.offsets.srcWithdrawal).value
      <= PhaseStart(timeLocks, timeLocks.offsets.srcPublicWithdrawal).value
      <= PhaseStart(timeLocks, timeLocks.offsets.srcCancellation).value
      <= PhaseStart(timeLocks, timeLocks.offsets.srcPublicCancellation).value
    ensures PhaseStart(timeLocks, timeLocks.offsets.dstWithdrawal).value
      <= PhaseStart(timeLocks, timeLocks.offsets.dstPublicWithdrawal).value
      <= PhaseStart(timeLocks, timeLocks.offsets.dstCancellation).value
  {
  }
}

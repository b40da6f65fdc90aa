/** The wire form of the model: every bigint is a decimal string, every
    other field keeps its type. Chain ids stay `number | string`. There is
    no `deployedAt` in `TimeLocksDto` and no `tokenId` in `ImmutablesDto`, so
    neither can travel on the wire. */
module Dtos {
  import opened Wrappers
  import opened Chain

  datatype TimeLocksDto = TimeLocksDto(
    srcWithdrawal: string,
    srcPublicWithdrawal: string,
    srcCancellation: string,
    srcPublicCancellation: string,
    dstWithdrawal: string,
    dstPublicWithdrawal: string,
    dstCancellation: string)

  datatype AssetDto = AssetDto(address: string, tokenId: Option<string>)

  /** An absent `receiver` is documented to mean "use `maker`". */
  datatype CrossChainOrderInfoDto = CrossChainOrderInfoDto(
    makerAsset: AssetDto,
    takerAsset: AssetDto,
    makingAmount: string,
    takingAmount: string,
    maker: string,
    salt: Option<string>,
    receiver: Option<string>)

  datatype EscrowParamsDto = EscrowParamsDto(
    hashLock: string,
    srcChainId: ChainId,
    dstChainId: ChainId,
    srcSafetyDeposit: string,
    dstSafetyDeposit: string,
    timeLocks: TimeLocksDto)

  datatype AuctionPointDto = AuctionPointDto(delay: real, coefficient: real)

  datatype AuctionGasCostInfoDto = AuctionGasCostInfoDto(gasBumpEstimate: string, gasPriceEstimate: string)

  datatype AuctionDetailsDto = AuctionDetailsDto(
    startTime: string,
    initialRateBump: real,
    duration: string,
    points: seq<AuctionPointDto>,
    gasCost: Option<AuctionGasCostInfoDto>)

  datatype IntegratorFeeDto = IntegratorFeeDto(ratio: string, receiver: string)

  datatype AuctionWhitelistItemDto = AuctionWhitelistItemDto(address: string, allowFrom: string)

  datatype FeesDto = FeesDto(integratorFee: Option<IntegratorFeeDto>, bankFee: Option<string>)

  datatype DetailsDto = DetailsDto(
    auction: AuctionDetailsDto,
    fees: Option<FeesDto>,
    whitelist: seq<AuctionWhitelistItemDto>,
    resolvingStartTime: Option<string>)

  /** `nonce` is documented as at most 40 bits wide. */
  datatype CrossChainOrderExtraDto = CrossChainOrderExtraDto(
    nonce: Option<string>,
    permit: Option<string>,
    orderExpirationDelay: Option<string>,
    enablePermit2: Option<bool>,
    source: Option<string>,
    allowMultipleFills: Option<bool>,
    allowPartialFills: Option<bool>)

  datatype CrossChainOrderDto = CrossChainOrderDto(
    escrowFactory: string,
    orderInfo: CrossChainOrderInfoDto,
    escrowParams: EscrowParamsDto,
    details: DetailsDto,
    extra: CrossChainOrderExtraDto)

  datatype SignedCrossChainOrderDto = SignedCrossChainOrderDto(
    order: CrossChainOrderDto,
    signature: string,
    orderHash: string)

  datatype ImmutablesDto = ImmutablesDto(
    orderHash: string,
    hashLock: string,
    maker: string,
    taker: string,
    token: string,
    amount: string,
    safetyDeposit: string,
    timeLocks: TimeLocksDto)
}

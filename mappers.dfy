/** Model <-> DTO mappers. Model to DTO is total: every bigint becomes its
    decimal text. DTO to model can fail, because `BigInt(text)` throws on
    text that is not an integer literal; a failure is `None`. */
module Mappers {
  import opened Wrappers
  import opened BigIntCodec
  import opened Models
  import opened Dtos

  // ======= Model to DTO ======= //

  function MapAuctionPointToDto(model: AuctionPoint): AuctionPointDto
  {
    AuctionPointDto(model.delay, model.coefficient)
  }

  function MapAuctionGasCostInfoToDto(model: AuctionGasCostInfo): AuctionGasCostInfoDto
  {
    AuctionGasCostInfoDto(IntToDecimal(model.gasBumpEstimate), IntToDecimal(model.gasPriceEstimate))
  }

  function MapAuctionPointsToDto(points: seq<AuctionPoint>): (r: seq<AuctionPointDto>)
    ensures |r| == |points|
    ensures forall i :: 0 <= i < |points| ==> r[i] == MapAuctionPointToDto(points[i])
  {
    seq(|points|, i requires 0 <= i < |points| => MapAuctionPointToDto(points[i]))
  }

  function MapAuctionDetailsToDto(model: AuctionDetails): AuctionDetailsDto
  {
    AuctionDetailsDto(
      IntToDecimal(model.startTime),
      model.initialRateBump,
      IntToDecimal(model.duration),
      MapAuctionPointsToDto(model.points),
      match model.gasCost
      case None => None
      case Some(g) => Some(MapAuctionGasCostInfoToDto(g)))
  }

  function MapIntegratorFeeToDto(model: IntegratorFee): IntegratorFeeDto
  {
    IntegratorFeeDto(IntToDecimal(model.ratio), model.receiver)
  }

  function MapAuctionWhitelistItemToDto(model: AuctionWhitelistItem): AuctionWhitelistItemDto
  {
    AuctionWhitelistItemDto(model.address, IntToDecimal(model.allowFrom))
  }

  function MapWhitelistToDto(items: seq<AuctionWhitelistItem>): (r: seq<AuctionWhitelistItemDto>)
    ensures |r| == |items|
    ensures forall i :: 0 <= i < |items| ==> r[i] == MapAuctionWhitelistItemToDto(items[i])
  {
    seq(|items|, i requires 0 <= i < |items| => MapAuctionWhitelistItemToDto(items[i]))
  }

  /** `bigint?.toString()`: absent stays absent, present (0 included) is encoded. */
  function MapOptionalIntToDto(value: Option<int>): Option<string>
  {
    match value
    case None => None
    case Some(n) => Some(IntToDecimal(n))
  }

  function MapFeesToDto(fees: Fees): FeesDto
  {
    FeesDto(
      match fees.integratorFee
      case None => None
      case Some(f) => Some(MapIntegratorFeeToDto(f)),
      MapOptionalIntToDto(fees.bankFee))
  }

  function MapDetailsToDto(model: Details): DetailsDto
  {
    DetailsDto(
      MapAuctionDetailsToDto(model.auction),
      match model.fees
      case None => None
      case Some(f) => Some(MapFeesToDto(f)),
      MapWhitelistToDto(model.whitelist),
      MapOptionalIntToDto(model.resolvingStartTime))
  }

  function MapTimeLocksToDto(model: TimeLocks): TimeLocksDto
  {
    TimeLocksDto(
      IntToDecimal(model.srcWithdrawal),
      IntToDecimal(model.srcPublicWithdrawal),
      IntToDecimal(model.srcCancellation),
      IntToDecimal(model.srcPublicCancellation),
      IntToDecimal(model.dstWithdrawal),
      IntToDecimal(model.dstPublicWithdrawal),
      IntToDecimal(model.dstCancellation))
  }

  function MapCrossChainOrderInfoToDto(model: CrossChainOrderInfo): CrossChainOrderInfoDto
  {
    CrossChainOrderInfoDto(
      AssetDto(model.makerAsset.address, model.makerAsset.tokenId),
      AssetDto(model.takerAsset.address, model.takerAsset.tokenId),
      IntToDecimal(model.makingAmount),
      IntToDecimal(model.takingAmount),
      model.maker,
      MapOptionalIntToDto(model.salt),
      model.receiver)
  }

  function MapEscrowParamsToDto(model: EscrowParams): EscrowParamsDto
  {
    EscrowParamsDto(
      model.hashLock,
      model.srcChainId,
      model.dstChainId,
      IntToDecimal(model.srcSafetyDeposit),
      IntToDecimal(model.dstSafetyDeposit),
      MapTimeLocksToDto(model.timeLocks))
  }

  function MapCrossChainOrderExtraToDto(model: CrossChainOrderExtra): CrossChainOrderExtraDto
  {
    CrossChainOrderExtraDto(
      MapOptionalIntToDto(model.nonce),
      model.permit,
      MapOptionalIntToDto(model.orderExpirationDelay),
      model.enablePermit2,
      model.source,
      model.allowMultipleFills,
      model.allowPartialFills)
  }

  function MapCrossChainOrderToDto(model: CrossChainOrder): CrossChainOrderDto
  {
    CrossChainOrderDto(
      model.escrowFactory,
      MapCrossChainOrderInfoToDto(model.orderInfo),
      MapEscrowParamsToDto(model.escrowParams),
      MapDetailsToDto(model.details),
      MapCrossChainOrderExtraToDto(model.extra))
  }

  function MapSignedCrossChainOrderToDto(model: SignedCrossChainOrder): SignedCrossChainOrderDto
  {
    SignedCrossChainOrderDto(MapCrossChainOrderToDto(model.order), model.signature, model.orderHash)
  }

  /** `tokenId` and `timeLocks.deployedAt` have no place in the DTO. */
  function MapImmutablesToDto(model: Immutables): ImmutablesDto
  {
    ImmutablesDto(
      model.orderHash,
      model.hashLock,
      model.maker,
      model.taker,
      model.token,
      IntToDecimal(model.amount),
      IntToDecimal(model.safetyDeposit),
      MapTimeLocksToDto(model.timeLocks.offsets))
  }

  // ======= DTO to model ======= //
  // JavaScript evaluates the fields in order and throws at the first bad
  // one; since the error itself is not modelled, evaluating every field and
  // failing when any failed is the same function.

  function MapAuctionPointDtoToModel(dto: AuctionPointDto): AuctionPoint
  {
    AuctionPoint(dto.delay, dto.coefficient)
  }

  function MapAuctionGasCostInfoDtoToModel(dto: AuctionGasCostInfoDto): Option<AuctionGasCostInfo>
  {
    var bump := ParseBigInt(dto.gasBumpEstimate);
    var price := ParseBigInt(dto.gasPriceEstimate);
    if bump.Some? && price.Some? then Some(AuctionGasCostInfo(bump.value, price.value)) else None
  }

  function MapAuctionPointsDtoToModel(points: seq<AuctionPointDto>): (r: seq<AuctionPoint>)
    ensures |r| == |points|
    ensures forall i :: 0 <= i < |points| ==> r[i] == MapAuctionPointDtoToModel(points[i])
  {
    seq(|points|, i requires 0 <= i < |points| => MapAuctionPointDtoToModel(points[i]))
  }

  /** `dto.gasCost ? map(dto.gasCost) : undefined`: an object is always truthy. */
  function MapOptionalGasCostDtoToModel(dto: Option<AuctionGasCostInfoDto>): Option<Option<AuctionGasCostInfo>>
  {
    match dto
    case None => Some(None)
    case Some(g) =>
      var v := MapAuctionGasCostInfoDtoToModel(g);
      if v.Some? then Some(Some(v.value)) else None
  }

  function MapAuctionDetailsDtoToModel(dto: AuctionDetailsDto): Option<AuctionDetails>
  {
    var startTime := ParseBigInt(dto.startTime);
    var duration := ParseBigInt(dto.duration);
    var gasCost := MapOptionalGasCostDtoToModel(dto.gasCost);
    if startTime.Some? && duration.Some? && gasCost.Some? then
      Some(AuctionDetails(startTime.value, dto.initialRateBump, duration.value,
        MapAuctionPointsDtoToModel(dto.points), gasCost.value))
    else None
  }

  function MapIntegratorFeeDtoToModel(dto: IntegratorFeeDto): Option<IntegratorFee>
  {
    var ratio := ParseBigInt(dto.ratio);
    if ratio.Some? then Some(IntegratorFee(ratio.value, dto.receiver)) else None
  }

  function MapAuctionWhitelistItemDtoToModel(dto: AuctionWhitelistItemDto): Option<AuctionWhitelistItem>
  {
    var allowFrom := ParseBigInt(dto.allowFrom);
    if allowFrom.Some? then Some(AuctionWhitelistItem(dto.address, allowFrom.value)) else None
  }

  /** `items.map(f)` for an `f` that may throw: fails when one item fails,
      else maps every item. */
  function MapAll<A, B>(items: seq<A>, f: A -> Option<B>): (r: Option<seq<B>>)
    ensures r.Some? <==> forall i :: 0 <= i < |items| ==> f(items[i]).Some?
    ensures r.Some? ==> |r.value| == |items|
    ensures r.Some? ==> forall i :: 0 <= i < |items| ==> r.value[i] == f(items[i]).value
  {
    if items == [] then Some([])
    else
      var head := f(items[0]);
      var tail := MapAll(items[1..], f);
      assert forall i :: 1 <= i < |items| ==> items[1..][i - 1] == items[i];
      if head.None? || tail.None? then None
      else
        var r := [head.value] + tail.value;
        assert forall i :: 1 <= i < |items| ==> r[i] == tail.value[i - 1];
        Some(r)
  }

  function MapWhitelistDtoToModel(items: seq<AuctionWhitelistItemDto>): Option<seq<AuctionWhitelistItem>>
  {
    MapAll(items, MapAuctionWhitelistItemDtoToModel)
  }

  /** A present-but-empty text is falsy and reads as absent; other present
      text is parsed (`dto.x ? BigInt(dto.x) : undefined`). */
  function MapTruthyIntDtoToModel(text: Option<string>): Option<Option<int>>
  {
    match text
    case None => Some(None)
    case Some(t) =>
      if t == "" then Some(None)
      else
        var n := ParseBigInt(t);
        if n.Some? then Some(Some(n.value)) else None
  }

  /** Any present text is parsed (`dto.x !== undefined ? BigInt(dto.x) : undefined`). */
  function MapDefinedIntDtoToModel(text: Option<string>): Option<Option<int>>
  {
    match text
    case None => Some(None)
    case Some(t) =>
      var n := ParseBigInt(t);
      if n.Some? then Some(Some(n.value)) else None
  }

  function MapOptionalIntegratorFeeDtoToModel(dto: Option<IntegratorFeeDto>): Option<Option<IntegratorFee>>
  {
    match dto
    case None => Some(None)
    case Some(f) =>
      var v := MapIntegratorFeeDtoToModel(f);
      if v.Some? then Some(Some(v.value)) else None
  }

  function MapFeesDtoToModel(dto: FeesDto): Option<Fees>
  {
    var integratorFee := MapOptionalIntegratorFeeDtoToModel(dto.integratorFee);
    var bankFee := MapTruthyIntDtoToModel(dto.bankFee);
    if integratorFee.Some? && bankFee.Some? then Some(Fees(integratorFee.value, bankFee.value)) else None
  }

  function MapOptionalFeesDtoToModel(dto: Option<FeesDto>): Option<Option<Fees>>
  {
    match dto
    case None => Some(None)
    case Some(f) =>
      var v := MapFeesDtoToModel(f);
      if v.Some? then Some(Some(v.value)) else None
  }

  function MapDetailsDtoToModel(dto: DetailsDto): Option<Details>
  {
    var auction := MapAuctionDetailsDtoToModel(dto.auction);
    var fees := MapOptionalFeesDtoToModel(dto.fees);
    var whitelist := MapWhitelistDtoToModel(dto.whitelist);
    var resolvingStartTime := MapTruthyIntDtoToModel(dto.resolvingStartTime);
    if auction.Some? && fees.Some? && whitelist.Some? && resolvingStartTime.Some? then
      Some(Details(auction.value, fees.value, whitelist.value, resolvingStartTime.value))
    else None
  }

  function MapTimeLocksDtoToModel(dto: TimeLocksDto): Option<TimeLocks>
  {
    var a := ParseBigInt(dto.srcWithdrawal);
    var b := ParseBigInt(dto.srcPublicWithdrawal);
    var c := ParseBigInt(dto.srcCancellation);
    var d := ParseBigInt(dto.srcPublicCancellation);
    var e := ParseBigInt(dto.dstWithdrawal);
    var f := ParseBigInt(dto.dstPublicWithdrawal);
    var g := ParseBigInt(dto.dstCancellation);
    if a.Some? && b.Some? && c.Some? && d.Some? && e.Some? && f.Some? && g.Some? then
      Some(TimeLocks(a.value, b.value, c.value, d.value, e.value, f.value, g.value))
    else None
  }

  function MapCrossChainOrderInfoDtoToModel(dto: CrossChainOrderInfoDto): Option<CrossChainOrderInfo>
  {
    var makingAmount := ParseBigInt(dto.makingAmount);
    var takingAmount := ParseBigInt(dto.takingAmount);
    var salt := MapDefinedIntDtoToModel(dto.salt);
    if makingAmount.Some? && takingAmount.Some? && salt.Some? then
      Some(CrossChainOrderInfo(
        Asset(dto.makerAsset.address, dto.makerAsset.tokenId),
        Asset(dto.takerAsset.address, dto.takerAsset.tokenId),
        makingAmount.value,
        takingAmount.value,
        dto.maker,
        salt.value,
        dto.receiver))
    else None
  }

  function MapEscrowParamsDtoToModel(dto: EscrowParamsDto): Option<EscrowParams>
  {
    var srcSafetyDeposit := ParseBigInt(dto.srcSafetyDeposit);
    var dstSafetyDeposit := ParseBigInt(dto.dstSafetyDeposit);
    var timeLocks := MapTimeLocksDtoToModel(dto.timeLocks);
    if srcSafetyDeposit.Some? && dstSafetyDeposit.Some? && timeLocks.Some? then
      Some(EscrowParams(dto.hashLock, dto.srcChainId, dto.dstChainId,
        srcSafetyDeposit.value, dstSafetyDeposit.value, timeLocks.value))
    else None
  }

  function MapCrossChainOrderExtraDtoToModel(dto: CrossChainOrderExtraDto): Option<CrossChainOrderExtra>
  {
    var nonce := MapDefinedIntDtoToModel(dto.nonce);
    var orderExpirationDelay := MapDefinedIntDtoToModel(dto.orderExpirationDelay);
    if nonce.Some? && orderExpirationDelay.Some? then
      Some(CrossChainOrderExtra(
        nonce.value,
        dto.permit,
        orderExpirationDelay.value,
        dto.enablePermit2,
        dto.source,
        dto.allowMultipleFills,
        dto.allowPartialFills))
    else None
  }

  function MapCrossChainOrderDtoToModel(dto: CrossChainOrderDto): Option<CrossChainOrder>
  {
    var orderInfo := MapCrossChainOrderInfoDtoToModel(dto.orderInfo);
    var escrowParams := MapEscrowParamsDtoToModel(dto.escrowParams);
    var details := MapDetailsDtoToModel(dto.details);
    var extra := MapCrossChainOrderExtraDtoToModel(dto.extra);
    if orderInfo.Some? && escrowParams.Some? && details.Some? && extra.Some? then
      Some(CrossChainOrder(dto.escrowFactory, orderInfo.value, escrowParams.value, details.value, extra.value))
    else None
  }

  function MapSignedCrossChainOrderDtoToModel(dto: SignedCrossChainOrderDto): Option<SignedCrossChainOrder>
  {
    var order := MapCrossChainOrderDtoToModel(dto.order);
    if order.Some? then Some(SignedCrossChainOrder(order.value, dto.signature, dto.orderHash)) else None
  }

  function MapImmutablesDtoToModel(dto: ImmutablesDto): Option<Immutables>
  {
    var amount := ParseBigInt(dto.amount);
    var safetyDeposit := ParseBigInt(dto.safetyDeposit);
    var timeLocks := MapTimeLocksDtoToModel(dto.timeLocks);
    if amount.Some? && safetyDeposit.Some? && timeLocks.Some? then
      Some(Immutables(
        dto.orderHash,
        dto.hashLock,
        dto.maker,
        dto.taker,
        dto.token,
        None,
        amount.value,
        safetyDeposit.value,
        ImmutablesTimeLocks(timeLocks.value, None)))
    else None
  }
}

/** Round trips of the model <-> DTO mappers. Model to DTO to model is the
    identity (for immutables, up to the two fields the DTO cannot carry).
    DTO to model to DTO is the identity exactly when every integer text in
    the DTO is canonical decimal, the form `toString` produces. */
module MapperProperties {
  import opened Wrappers
  import opened BigIntCodec
  import opened Models
  import opened Dtos
  import opened Mappers

  // ======= Canonical DTOs ======= //

  predicate CanonicalOptional(text: Option<string>)
  {
    text.Some? ==> Canonical(text.value)
  }

  predicate CanonicalTimeLocksDto(d: TimeLocksDto)
  {
    Canonical(d.srcWithdrawal) && Canonical(d.srcPublicWithdrawal) && Canonical(d.srcCancellation)
    && Canonical(d.srcPublicCancellation) && Canonical(d.dstWithdrawal)
    && Canonical(d.dstPublicWithdrawal) && Canonical(d.dstCancellation)
  }

  predicate CanonicalGasCostDto(d: AuctionGasCostInfoDto)
  {
    Canonical(d.gasBumpEstimate) && Canonical(d.gasPriceEstimate)
  }

  predicate CanonicalAuctionDetailsDto(d: AuctionDetailsDto)
  {
    Canonical(d.startTime) && Canonical(d.duration) && (d.gasCost.Some? ==> CanonicalGasCostDto(d.gasCost.value))
  }

  predicate CanonicalWhitelistDto(items: seq<AuctionWhitelistItemDto>)
  {
    forall i :: 0 <= i < |items| ==> Canonical(items[i].allowFrom)
  }

  predicate CanonicalFeesDto(d: FeesDto)
  {
    (d.integratorFee.Some? ==> Canonical(d.integratorFee.value.ratio)) && CanonicalOptional(d.bankFee)
  }

  predicate CanonicalDetailsDto(d: DetailsDto)
  {
    CanonicalAuctionDetailsDto(d.auction) && (d.fees.Some? ==> CanonicalFeesDto(d.fees.value))
    && CanonicalWhitelistDto(d.whitelist) && CanonicalOptional(d.resolvingStartTime)
  }

  predicate CanonicalOrderInfoDto(d: CrossChainOrderInfoDto)
  {
    Canonical(d.makingAmount) && Canonical(d.takingAmount) && CanonicalOptional(d.salt)
  }

  predicate CanonicalEscrowParamsDto(d: EscrowParamsDto)
  {
    Canonical(d.srcSafetyDeposit) && Canonical(d.dstSafetyDeposit) && CanonicalTimeLocksDto(d.timeLocks)
  }

  predicate CanonicalExtraDto(d: CrossChainOrderExtraDto)
  {
    CanonicalOptional(d.nonce) && CanonicalOptional(d.orderExpirationDelay)
  }

  predicate CanonicalOrderDto(d: CrossChainOrderDto)
  {
    CanonicalOrderInfoDto(d.orderInfo) && CanonicalEscrowParamsDto(d.escrowParams)
    && CanonicalDetailsDto(d.details) && CanonicalExtraDto(d.extra)
  }

  predicate CanonicalImmutablesDto(d: ImmutablesDto)
  {
    Canonical(d.amount) && Canonical(d.safetyDeposit) && CanonicalTimeLocksDto(d.timeLocks)
  }

  // ======= Optional integers ======= //

  lemma OptionalIntRoundTrip(value: Option<int>)
    ensures MapDefinedIntDtoToModel(MapOptionalIntToDto(value)) == Some(value)
    ensures MapTruthyIntDtoToModel(MapOptionalIntToDto(value)) == Some(value)
    ensures CanonicalOptional(MapOptionalIntToDto(value))
  {
    if value.Some? {
      ParseOfToString(value.value);
    }
  }

  lemma OptionalTextRoundTrip(text: Option<string>)
    ensures CanonicalOptional(text) ==> (
      MapDefinedIntDtoToModel(text).Some? && MapOptionalIntToDto(MapDefinedIntDtoToModel(text).value) == text)
    ensures CanonicalOptional(text) ==> (
      MapTruthyIntDtoToModel(text).Some? && MapOptionalIntToDto(MapTruthyIntDtoToModel(text).value) == text)
  {
    if text.Some? {
      ToStringOfParse(text.value);
    }
  }

  // ======= Model -> DTO -> model ======= //

  /** All seven offsets survive the trip, at any size (no 53-bit limit). */
  lemma TimeLocksRoundTrip(t: TimeLocks)
    ensures MapTimeLocksDtoToModel(MapTimeLocksToDto(t)) == Some(t)
    ensures CanonicalTimeLocksDto(MapTimeLocksToDto(t))
  {
    ParseOfToString(t.srcWithdrawal);
    ParseOfToString(t.srcPublicWithdrawal);
    ParseOfToString(t.srcCancellation);
    ParseOfToString(t.srcPublicCancellation);
    ParseOfToString(t.dstWithdrawal);
    ParseOfToString(t.dstPublicWithdrawal);
    ParseOfToString(t.dstCancellation);
  }

  /** Assets are copied, an absent salt stays absent and a zero salt stays 0. */
  lemma OrderInfoRoundTrip(m: CrossChainOrderInfo)
    ensures MapCrossChainOrderInfoDtoToModel(MapCrossChainOrderInfoToDto(m)) == Some(m)
    ensures CanonicalOrderInfoDto(MapCrossChainOrderInfoToDto(m))
  {
    ParseOfToString(m.makingAmount);
    ParseOfToString(m.takingAmount);
    OptionalIntRoundTrip(m.salt);
  }

  lemma EscrowParamsRoundTrip(m: EscrowParams)
    ensures MapEscrowParamsDtoToModel(MapEscrowParamsToDto(m)) == Some(m)
    ensures CanonicalEscrowParamsDto(MapEscrowParamsToDto(m))
  {
    ParseOfToString(m.srcSafetyDeposit);
    ParseOfToString(m.dstSafetyDeposit);
    TimeLocksRoundTrip(m.timeLocks);
  }

  lemma GasCostRoundTrip(m: AuctionGasCostInfo)
    ensures MapAuctionGasCostInfoDtoToModel(MapAuctionGasCostInfoToDto(m)) == Some(m)
    ensures CanonicalGasCostDto(MapAuctionGasCostInfoToDto(m))
  {
    ParseOfToString(m.gasBumpEstimate);
    ParseOfToString(m.gasPriceEstimate);
  }

  lemma AuctionDetailsRoundTrip(m: AuctionDetails)
    ensures MapAuctionDetailsDtoToModel(MapAuctionDetailsToDto(m)) == Some(m)
    ensures CanonicalAuctionDetailsDto(MapAuctionDetailsToDto(m))
  {
    ParseOfToString(m.startTime);
    ParseOfToString(m.duration);
    if m.gasCost.Some? {
      GasCostRoundTrip(m.gasCost.value);
    }
    AuctionPointsRoundTrip(m.points);
  }

  /** Auction points are copied one by one, so the list comes back whole. */
  lemma AuctionPointsRoundTrip(points: seq<AuctionPoint>)
    ensures MapAuctionPointsDtoToModel(MapAuctionPointsToDto(points)) == points
  {
    var back := MapAuctionPointsDtoToModel(MapAuctionPointsToDto(points));
    assert |back| == |points|;
    forall i | 0 <= i < |points|
      ensures back[i] == points[i]
    {
    }
  }

  lemma WhitelistRoundTrip(items: seq<AuctionWhitelistItem>)
    ensures MapWhitelistDtoToModel(MapWhitelistToDto(items)) == Some(items)
    ensures CanonicalWhitelistDto(MapWhitelistToDto(items))
  {
    var dtos := MapWhitelistToDto(items);
    forall i | 0 <= i < |items|
      ensures MapAuctionWhitelistItemDtoToModel(dtos[i]) == Some(items[i])
      ensures Canonical(dtos[i].allowFrom)
    {
      ParseOfToString(items[i].allowFrom);
    }
    var back := MapWhitelistDtoToModel(dtos);
    assert back.Some?;
    assert back.value == items;
  }

  lemma FeesRoundTrip(m: Fees)
    ensures MapFeesDtoToModel(MapFeesToDto(m)) == Some(m)
    ensures CanonicalFeesDto(MapFeesToDto(m))
  {
    if m.integratorFee.Some? {
      ParseOfToString(m.integratorFee.value.ratio);
    }
    OptionalIntRoundTrip(m.bankFee);
  }

  /** Presence of fees, integrator fee, bank fee, gas cost and resolving
      start time is preserved; points and whitelist come back element-wise. */
  lemma DetailsRoundTrip(m: Details)
    ensures MapDetailsDtoToModel(MapDetailsToDto(m)) == Some(m)
    ensures CanonicalDetailsDto(MapDetailsToDto(m))
  {
    AuctionDetailsRoundTrip(m.auction);
    if m.fees.Some? {
      FeesRoundTrip(m.fees.value);
    }
    WhitelistRoundTrip(m.whitelist);
    OptionalIntRoundTrip(m.resolvingStartTime);
  }

  lemma ExtraRoundTrip(m: CrossChainOrderExtra)
    ensures MapCrossChainOrderExtraDtoToModel(MapCrossChainOrderExtraToDto(m)) == Some(m)
    ensures CanonicalExtraDto(MapCrossChainOrderExtraToDto(m))
  {
    OptionalIntRoundTrip(m.nonce);
    OptionalIntRoundTrip(m.orderExpirationDelay);
  }

  lemma OrderRoundTrip(m: CrossChainOrder)
    ensures MapCrossChainOrderDtoToModel(MapCrossChainOrderToDto(m)) == Some(m)
    ensures CanonicalOrderDto(MapCrossChainOrderToDto(m))
  {
    OrderInfoRoundTrip(m.orderInfo);
    EscrowParamsRoundTrip(m.escrowParams);
    DetailsRoundTrip(m.details);
    ExtraRoundTrip(m.extra);
  }

  /** Signature and order hash travel untouched. */
  lemma SignedOrderRoundTrip(m: SignedCrossChainOrder)
    ensures MapSignedCrossChainOrderDtoToModel(MapSignedCrossChainOrderToDto(m)) == Some(m)
    ensures CanonicalOrderDto(MapSignedCrossChainOrderToDto(m).order)
  {
    OrderRoundTrip(m.order);
  }

  /** The DTO drops `tokenId` and `deployedAt`: the trip clears both, and is
      the identity exactly when both were absent. */
  lemma ImmutablesRoundTrip(m: Immutables)
    ensures MapImmutablesDtoToModel(MapImmutablesToDto(m))
      == Some(m.(tokenId := None, timeLocks := ImmutablesTimeLocks(m.timeLocks.offsets, None)))
    ensures MapImmutablesDtoToModel(MapImmutablesToDto(m)) == Some(m)
      <==> m.tokenId.None? && m.timeLocks.deployedAt.None?
    ensures CanonicalImmutablesDto(MapImmutablesToDto(m))
  {
    ParseOfToString(m.amount);
    ParseOfToString(m.safetyDeposit);
    TimeLocksRoundTrip(m.timeLocks.offsets);
  }

  // ======= DTO -> model -> DTO ======= //

  lemma TimeLocksDtoRoundTrip(d: TimeLocksDto)
    ensures CanonicalTimeLocksDto(d) <==>
      MapTimeLocksDtoToModel(d).Some? && MapTimeLocksToDto(MapTimeLocksDtoToModel(d).value) == d
  {
    ToStringOfParse(d.srcWithdrawal);
    ToStringOfParse(d.srcPublicWithdrawal);
    ToStringOfParse(d.srcCancellation);
    ToStringOfParse(d.srcPublicCancellation);
    ToStringOfParse(d.dstWithdrawal);
    ToStringOfParse(d.dstPublicWithdrawal);
    ToStringOfParse(d.dstCancellation);
    if MapTimeLocksDtoToModel(d).Some? {
      TimeLocksRoundTrip(MapTimeLocksDtoToModel(d).value);
    }
  }

  lemma GasCostDtoRoundTrip(d: AuctionGasCostInfoDto)
    ensures CanonicalGasCostDto(d) ==> (
      MapAuctionGasCostInfoDtoToModel(d).Some? && MapAuctionGasCostInfoToDto(MapAuctionGasCostInfoDtoToModel(d).value) == d)
  {
    ToStringOfParse(d.gasBumpEstimate);
    ToStringOfParse(d.gasPriceEstimate);
  }

  /** Wire auction points come back whole: their fields are never re-encoded. */
  lemma AuctionPointsDtoRoundTrip(points: seq<AuctionPointDto>)
    ensures MapAuctionPointsToDto(MapAuctionPointsDtoToModel(points)) == points
  {
    var back := MapAuctionPointsToDto(MapAuctionPointsDtoToModel(points));
    assert |back| == |points|;
    forall i | 0 <= i < |points|
      ensures back[i] == points[i]
    {
    }
  }

  lemma AuctionDetailsDtoRoundTrip(d: AuctionDetailsDto)
    ensures CanonicalAuctionDetailsDto(d) ==> (
      MapAuctionDetailsDtoToModel(d).Some? && MapAuctionDetailsToDto(MapAuctionDetailsDtoToModel(d).value) == d)
  {
    ToStringOfParse(d.startTime);
    ToStringOfParse(d.duration);
    if d.gasCost.Some? {
      GasCostDtoRoundTrip(d.gasCost.value);
    }
    AuctionPointsDtoRoundTrip(d.points);
  }

  lemma WhitelistDtoRoundTrip(items: seq<AuctionWhitelistItemDto>)
    ensures CanonicalWhitelistDto(items) ==> (
      MapWhitelistDtoToModel(items).Some? && MapWhitelistToDto(MapWhitelistDtoToModel(items).value) == items)
  {
    if CanonicalWhitelistDto(items) {
      forall i | 0 <= i < |items|
        ensures MapAuctionWhitelistItemDtoToModel(items[i]).Some?
        ensures MapAuctionWhitelistItemToDto(MapAuctionWhitelistItemDtoToModel(items[i]).value) == items[i]
      {
        ToStringOfParse(items[i].allowFrom);
      }
    }
  }

  lemma FeesDtoRoundTrip(d: FeesDto)
    ensures CanonicalFeesDto(d) ==> MapFeesDtoToModel(d).Some? && MapFeesToDto(MapFeesDtoToModel(d).value) == d
  {
    if d.integratorFee.Some? {
      ToStringOfParse(d.integratorFee.value.ratio);
    }
    OptionalTextRoundTrip(d.bankFee);
  }

  lemma DetailsDtoRoundTrip(d: DetailsDto)
    ensures CanonicalDetailsDto(d) ==> (
      MapDetailsDtoToModel(d).Some? && MapDetailsToDto(MapDetailsDtoToModel(d).value) == d)
  {
    AuctionDetailsDtoRoundTrip(d.auction);
    if d.fees.Some? {
      FeesDtoRoundTrip(d.fees.value);
    }
    WhitelistDtoRoundTrip(d.whitelist);
    OptionalTextRoundTrip(d.resolvingStartTime);
  }

  lemma OrderInfoDtoRoundTrip(d: CrossChainOrderInfoDto)
    ensures CanonicalOrderInfoDto(d) ==> (
      MapCrossChainOrderInfoDtoToModel(d).Some? && MapCrossChainOrderInfoToDto(MapCrossChainOrderInfoDtoToModel(d).value) == d)
  {
    ToStringOfParse(d.makingAmount);
    ToStringOfParse(d.takingAmount);
    OptionalTextRoundTrip(d.salt);
  }

  lemma EscrowParamsDtoRoundTrip(d: EscrowParamsDto)
    ensures CanonicalEscrowParamsDto(d) ==> (
      MapEscrowParamsDtoToModel(d).Some? && MapEscrowParamsToDto(MapEscrowParamsDtoToModel(d).value) == d)
  {
    ToStringOfParse(d.srcSafetyDeposit);
    ToStringOfParse(d.dstSafetyDeposit);
    TimeLocksDtoRoundTrip(d.timeLocks);
  }

  lemma ExtraDtoRoundTrip(d: CrossChainOrderExtraDto)
    ensures CanonicalExtraDto(d) ==> (
      MapCrossChainOrderExtraDtoToModel(d).Some? && MapCrossChainOrderExtraToDto(MapCrossChainOrderExtraDtoToModel(d).value) == d)
  {
    OptionalTextRoundTrip(d.nonce);
    OptionalTextRoundTrip(d.orderExpirationDelay);
  }

  /** DTO to model to DTO is the identity exactly on canonical DTOs. */
  lemma OrderDtoRoundTrip(d: CrossChainOrderDto)
    ensures CanonicalOrderDto(d) <==>
      MapCrossChainOrderDtoToModel(d).Some? && MapCrossChainOrderToDto(MapCrossChainOrderDtoToModel(d).value) == d
  {
    OrderInfoDtoRoundTrip(d.orderInfo);
    EscrowParamsDtoRoundTrip(d.escrowParams);
    DetailsDtoRoundTrip(d.details);
    ExtraDtoRoundTrip(d.extra);
    if MapCrossChainOrderDtoToModel(d).Some? {
      OrderRoundTrip(MapCrossChainOrderDtoToModel(d).value);
    }
  }

  /** A signed order DTO comes back exactly when its order's integer texts
      are canonical; signature and order hash are never touched. */
  lemma SignedOrderDtoRoundTrip(d: SignedCrossChainOrderDto)
    ensures CanonicalOrderDto(d.order) <==>
      MapSignedCrossChainOrderDtoToModel(d).Some?
      && MapSignedCrossChainOrderToDto(MapSignedCrossChainOrderDtoToModel(d).value) == d
    ensures MapSignedCrossChainOrderDtoToModel(d).Some? <==> MapCrossChainOrderDtoToModel(d.order).Some?
    ensures MapSignedCrossChainOrderDtoToModel(d).Some? ==>
      MapSignedCrossChainOrderDtoToModel(d).value.signature == d.signature
      && MapSignedCrossChainOrderDtoToModel(d).value.orderHash == d.orderHash
  {
    OrderDtoRoundTrip(d.order);
  }

  /** Decoding immutables copies the text fields and sets no `tokenId` and no
      `deployedAt`; the trip back is the identity exactly on canonical texts. */
  lemma ImmutablesDtoRoundTrip(d: ImmutablesDto)
    ensures CanonicalImmutablesDto(d) <==>
      MapImmutablesDtoToModel(d).Some? && MapImmutablesToDto(MapImmutablesDtoToModel(d).value) == d
    ensures MapImmutablesDtoToModel(d).Some? ==>
      var m := MapImmutablesDtoToModel(d).value;
      m.tokenId.None? && m.timeLocks.deployedAt.None?
      && m.orderHash == d.orderHash && m.hashLock == d.hashLock && m.maker == d.maker
      && m.taker == d.taker && m.token == d.token
  {
    ToStringOfParse(d.amount);
    ToStringOfParse(d.safetyDeposit);
    TimeLocksDtoRoundTrip(d.timeLocks);
    if MapImmutablesDtoToModel(d).Some? {
      ImmutablesRoundTrip(MapImmutablesDtoToModel(d).value);
    }
  }

  // ======= Fields that are not integers ======= //

  /** Addresses, token ids, receivers, hash-lock, chain ids, auction numbers,
      whitelist addresses, permit, source and flags are copied unchanged from
      model to DTO. */
  lemma NonIntegerFieldsToDto(m: CrossChainOrder)
    ensures var t := MapCrossChainOrderToDto(m);
      t.escrowFactory == m.escrowFactory && t.orderInfo.maker == m.orderInfo.maker
      && t.orderInfo.makerAsset == AssetDto(m.orderInfo.makerAsset.address, m.orderInfo.makerAsset.tokenId)
      && t.orderInfo.takerAsset == AssetDto(m.orderInfo.takerAsset.address, m.orderInfo.takerAsset.tokenId)
      && t.orderInfo.receiver == m.orderInfo.receiver
      && t.escrowParams.hashLock == m.escrowParams.hashLock
      && t.escrowParams.srcChainId == m.escrowParams.srcChainId
      && t.escrowParams.dstChainId == m.escrowParams.dstChainId
      && t.details.auction.initialRateBump == m.details.auction.initialRateBump
      && t.extra.permit == m.extra.permit && t.extra.source == m.extra.source
      && t.extra.enablePermit2 == m.extra.enablePermit2
      && t.extra.allowMultipleFills == m.extra.allowMultipleFills
      && t.extra.allowPartialFills == m.extra.allowPartialFills
    ensures var points := MapCrossChainOrderToDto(m).details.auction.points;
      |points| == |m.details.auction.points|
      && forall i :: 0 <= i < |points| ==>
           points[i].delay == m.details.auction.points[i].delay
           && points[i].coefficient == m.details.auction.points[i].coefficient
    ensures var whitelist := MapCrossChainOrderToDto(m).details.whitelist;
      |whitelist| == |m.details.whitelist|
      && forall i :: 0 <= i < |whitelist| ==> whitelist[i].address == m.details.whitelist[i].address
    ensures var fees := MapCrossChainOrderToDto(m).details.fees;
      (fees.Some? <==> m.details.fees.Some?)
      && (fees.Some? ==>
            (fees.value.integratorFee.Some? <==> m.details.fees.value.integratorFee.Some?)
            && (fees.value.integratorFee.Some? ==>
                  fees.value.integratorFee.value.receiver == m.details.fees.value.integratorFee.value.receiver))
  {
  }

  lemma OrderInfoFieldsToModel(d: CrossChainOrderInfoDto)
    requires MapCrossChainOrderInfoDtoToModel(d).Some?
    ensures var o := MapCrossChainOrderInfoDtoToModel(d).value;
      o.maker == d.maker && o.receiver == d.receiver
      && o.makerAsset.address == d.makerAsset.address && o.makerAsset.tokenId == d.makerAsset.tokenId
      && o.takerAsset.address == d.takerAsset.address && o.takerAsset.tokenId == d.takerAsset.tokenId
  {
  }

  lemma EscrowParamsFieldsToModel(d: EscrowParamsDto)
    requires MapEscrowParamsDtoToModel(d).Some?
    ensures var o := MapEscrowParamsDtoToModel(d).value;
      o.hashLock == d.hashLock && o.srcChainId == d.srcChainId && o.dstChainId == d.dstChainId
  {
  }

  lemma AuctionFieldsToModel(d: AuctionDetailsDto)
    requires MapAuctionDetailsDtoToModel(d).Some?
    ensures var o := MapAuctionDetailsDtoToModel(d).value;
      o.initialRateBump == d.initialRateBump && |o.points| == |d.points|
      && forall i :: 0 <= i < |o.points| ==>
           o.points[i].delay == d.points[i].delay && o.points[i].coefficient == d.points[i].coefficient
  {
  }

  lemma WhitelistFieldsToModel(items: seq<AuctionWhitelistItemDto>)
    requires MapWhitelistDtoToModel(items).Some?
    ensures var o := MapWhitelistDtoToModel(items).value;
      |o| == |items| && forall i :: 0 <= i < |o| ==> o[i].address == items[i].address
  {
  }

  /** Fees and the integrator fee keep their presence; the receiver is copied. */
  lemma FeesFieldsToModel(d: Option<FeesDto>)
    requires MapOptionalFeesDtoToModel(d).Some?
    ensures var o := MapOptionalFeesDtoToModel(d).value;
      (o.Some? <==> d.Some?)
      && (o.Some? ==>
            (o.value.integratorFee.Some? <==> d.value.integratorFee.Some?)
            && (o.value.integratorFee.Some? ==> o.value.integratorFee.value.receiver == d.value.integratorFee.value.receiver))
  {
  }

  lemma ExtraFieldsToModel(d: CrossChainOrderExtraDto)
    requires MapCrossChainOrderExtraDtoToModel(d).Some?
    ensures var o := MapCrossChainOrderExtraDtoToModel(d).value;
      o.permit == d.permit && o.source == d.source && o.enablePermit2 == d.enablePermit2
      && o.allowMultipleFills == d.allowMultipleFills && o.allowPartialFills == d.allowPartialFills
  {
  }

  /** The same fields are copied unchanged from DTO to model: addresses,
      token ids, receivers, hash-lock, chain ids, auction numbers, whitelist
      addresses, permit, source and flags. */
  lemma NonIntegerFieldsToModel(d: CrossChainOrderDto)
    requires MapCrossChainOrderDtoToModel(d).Some?
    ensures var o := MapCrossChainOrderDtoToModel(d).value;
      o.escrowFactory == d.escrowFactory && o.orderInfo.maker == d.orderInfo.maker
      && o.orderInfo.makerAsset == Asset(d.orderInfo.makerAsset.address, d.orderInfo.makerAsset.tokenId)
      && o.orderInfo.takerAsset == Asset(d.orderInfo.takerAsset.address, d.orderInfo.takerAsset.tokenId)
      && o.orderInfo.receiver == d.orderInfo.receiver
      && o.escrowParams.hashLock == d.escrowParams.hashLock
      && o.escrowParams.srcChainId == d.escrowParams.srcChainId
      && o.escrowParams.dstChainId == d.escrowParams.dstChainId
      && o.details.auction.initialRateBump == d.details.auction.initialRateBump
      && o.extra.permit == d.extra.permit && o.extra.source == d.extra.source
      && o.extra.enablePermit2 == d.extra.enablePermit2
      && o.extra.allowMultipleFills == d.extra.allowMultipleFills
      && o.extra.allowPartialFills == d.extra.allowPartialFills
    ensures var points := MapCrossChainOrderDtoToModel(d).value.details.auction.points;
      |points| == |d.details.auction.points|
      && forall i :: 0 <= i < |points| ==>
           points[i].delay == d.details.auction.points[i].delay
           && points[i].coefficient == d.details.auction.points[i].coefficient
    ensures var whitelist := MapCrossChainOrderDtoToModel(d).value.details.whitelist;
      |whitelist| == |d.details.whitelist|
      && forall i :: 0 <= i < |whitelist| ==> whitelist[i].address == d.details.whitelist[i].address
    ensures var fees := MapCrossChainOrderDtoToModel(d).value.details.fees;
      (fees.Some? <==> d.details.fees.Some?)
      && (fees.Some? ==>
            (fees.value.integratorFee.Some? <==> d.details.fees.value.integratorFee.Some?)
            && (fees.value.integratorFee.Some? ==>
                  fees.value.integratorFee.value.receiver == d.details.fees.value.integratorFee.value.receiver))
  {
    var o := MapCrossChainOrderDtoToModel(d).value;
    var info := MapCrossChainOrderInfoDtoToModel(d.orderInfo);
    var params := MapEscrowParamsDtoToModel(d.escrowParams);
    var details := MapDetailsDtoToModel(d.details);
    var extra := MapCrossChainOrderExtraDtoToModel(d.extra);
    assert info.Some? && params.Some? && details.Some? && extra.Some?;
    assert o == CrossChainOrder(d.escrowFactory, info.value, params.value, details.value, extra.value);
    OrderInfoFieldsToModel(d.orderInfo);
    EscrowParamsFieldsToModel(d.escrowParams);
    var auction := MapAuctionDetailsDtoToModel(d.details.auction);
    assert auction.Some? && details.value.auction == auction.value;
    AuctionFieldsToModel(d.details.auction);
    WhitelistFieldsToModel(d.details.whitelist);
    FeesFieldsToModel(d.details.fees);
    ExtraFieldsToModel(d.extra);
  }

  /** An absent wire `receiver` is not defaulted to `maker`: it stays absent. */
  lemma AbsentReceiverStaysAbsent(d: CrossChainOrderInfoDto)
    requires d.receiver.None? && MapCrossChainOrderInfoDtoToModel(d).Some?
    ensures MapCrossChainOrderInfoDtoToModel(d).value.receiver.None?
  {
  }

  /** A present empty salt is parsed: it becomes 0 and comes back as "0". */
  lemma EmptySaltBecomesZero(d: CrossChainOrderInfoDto)
    requires d.salt == Some("") && MapCrossChainOrderInfoDtoToModel(d).Some?
    ensures MapCrossChainOrderInfoDtoToModel(d).value.salt == Some(0)
    ensures MapCrossChainOrderInfoToDto(MapCrossChainOrderInfoDtoToModel(d).value).salt == Some("0")
  {
    EmptyTextIsZero();
  }

  /** A present empty bank fee is falsy: it becomes absent and stays absent. */
  lemma EmptyBankFeeBecomesAbsent(d: FeesDto)
    requires d.bankFee == Some("") && MapFeesDtoToModel(d).Some?
    ensures MapFeesDtoToModel(d).value.bankFee.None?
    ensures MapFeesToDto(MapFeesDtoToModel(d).value).bankFee.None?
  {
  }
}

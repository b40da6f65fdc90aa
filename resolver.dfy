/** The resolver service: it starts a swap by deploying the source and
    destination escrows of a signed order, remembers the swap under its order
    hash, and finalizes it by withdrawing from both escrows with the secret.

    The chain adapters are not modelled: every answer they would give is
    supplied by a `ChainAnswers` value, and every call the resolver makes is
    returned, in order, as a `ChainCall` trace. The two pure SDK
    computations (an order's hash for a chain number, and the deterministic
    address of a source escrow) are functions fixed at construction. */
module Resolver {
  import opened Wrappers
  import opened Chain
  import opened Models
  import opened ResolverModels

  datatype Side = Src | Dst

  /** A call the resolver makes on a chain adapter, with its arguments. */
  datatype ChainCall =
    | EvmGetResolverAddress
    | TezosGetResolverAddress
    | EvmDeploySrc(order: SignedCrossChainOrder, amount: int, amountThreshold: int)
    | EvmGetSrcDeployEvent(block: string)
    | TezosDeployDst(immutables: Immutables)
    | EvmGetSourceImpl
    | TezosDeploySrc(immutables: Immutables, signature: string)
    | TezosWithdraw(escrowAddress: string, secret: string, immutables: Immutables)
    | EvmWithdraw(escrowAddress: string, secret: string, immutables: Immutables)
  {
    predicate Deploys()
    {
      EvmDeploySrc? || TezosDeployDst? || TezosDeploySrc?
    }
  }

  /** What the adapters answer; `Err` is a rejected promise. */
  datatype ChainAnswers = ChainAnswers(
    evmResolverAddress: Result<string, string>,
    tezosResolverAddress: Result<string, string>,
    evmDeploySrc: (SignedCrossChainOrder, int, int) -> Result<Transaction, string>,
    evmSrcDeployEvent: string -> Result<Immutables, string>,
    tezosDeployDst: Immutables -> Result<(Transaction, string), string>,
    evmSourceImpl: Result<string, string>,
    tezosDeploySrc: (Immutables, string) -> Result<(Transaction, string), string>,
    tezosWithdraw: (string, string, Immutables) -> Result<Transaction, string>,
    evmWithdraw: (string, string, Immutables) -> Result<Transaction, string>)

  datatype SwapError =
    | CannotSwap
    | AdapterFailure(reason: string)
    | SdkFailure(reason: string)
    | OrderHashMismatch(expected: string, actual: string)
    | UnsupportedChainCombination(srcChainId: ChainId, dstChainId: ChainId)
    | OrderNotFound(orderHash: string)
    | TezosToEthereumNotSupported
    | CancelNotImplemented

  predicate IsEthereumToTezos(order: SignedCrossChainOrder)
  {
    order.order.escrowParams.srcChainId == Ethereum && order.order.escrowParams.dstChainId == TezosGhostnet
  }

  predicate IsTezosToEthereum(order: SignedCrossChainOrder)
  {
    order.order.escrowParams.srcChainId == TezosGhostnet && order.order.escrowParams.dstChainId == Ethereum
  }

  /** The chain number the order hash is computed for: the source chain's. */
  function SdkChainNumber(order: SignedCrossChainOrder): int
  {
    if IsEthereumToTezos(order) then EthereumSdkChainNumber else TezosGhostnetSdkChainNumber
  }

  predicate HasDeploy(calls: seq<ChainCall>)
  {
    exists i :: 0 <= i < |calls| && calls[i].Deploys()
  }

  /** `buildImmutables`: the escrow of one side holds what that side's party
      gives: the maker's asset and amount on the source chain, the taker's
      asset and amount on the destination chain. */
  function BuildImmutables(order: SignedCrossChainOrder, side: Side, deployedAt: Option<int>, taker: string): Immutables
  {
    var info := order.order.orderInfo;
    var escrow := order.order.escrowParams;
    Immutables(
      order.orderHash,
      escrow.hashLock,
      info.maker,
      taker,
      if side == Src then info.makerAsset.address else info.takerAsset.address,
      None,
      if side == Src then info.makingAmount else info.takingAmount,
      if side == Src then escrow.srcSafetyDeposit else escrow.dstSafetyDeposit,
      ImmutablesTimeLocks(escrow.timeLocks, deployedAt))
  }

  /** What both escrows of an order share, and where they differ. */
  lemma BuildImmutablesSides(order: SignedCrossChainOrder, deployedAt: Option<int>, srcTaker: string, dstTaker: string)
    ensures var src := BuildImmutables(order, Src, deployedAt, srcTaker);
      var dst := BuildImmutables(order, Dst, deployedAt, dstTaker);
      src.orderHash == dst.orderHash == order.orderHash
      && src.hashLock == dst.hashLock == order.order.escrowParams.hashLock
      && src.maker == dst.maker == order.order.orderInfo.maker
      && src.timeLocks == dst.timeLocks == ImmutablesTimeLocks(order.order.escrowParams.timeLocks, deployedAt)
      && src.tokenId.None? && dst.tokenId.None?
      && src.taker == srcTaker && dst.taker == dstTaker
      && src.token == order.order.orderInfo.makerAsset.address && src.amount == order.order.orderInfo.makingAmount
      && src.safetyDeposit == order.order.escrowParams.srcSafetyDeposit
      && dst.token == order.order.orderInfo.takerAsset.address && dst.amount == order.order.orderInfo.takingAmount
      && dst.safetyDeposit == order.order.escrowParams.dstSafetyDeposit
  {
  }

  /** A well-formed order gives immutables whose phases start in order. */
  lemma BuiltImmutablesPhasesOrdered(order: SignedCrossChainOrder, side: Side, deployedAt: int, taker: string)
    requires OrderWellFormed(order.order)
    ensures var timeLocks := BuildImmutables(order, side, Some(deployedAt), taker).timeLocks;
      PhaseStart(timeLocks, timeLocks.offsets.srcWithdrawal).value
      <= PhaseStart(timeLocks, timeLocks.offsets.srcPublicWithdrawal).value
      <= PhaseStart(timeLocks, timeLocks.offsets.srcCancellation).value
      <= PhaseStart(timeLocks, timeLocks.offsets.srcPublicCancellation).value
  {
    PhaseStartsOrdered(BuildImmutables(order, side, Some(deployedAt), taker).timeLocks);
  }

  /** What every stored context satisfies: it is stored under its own order
      hash, whose hash the SDK confirmed; it is an Ethereum to Tezos swap; and
      its destination escrow is built from the order and anchored at the
      source escrow's deployment. */
  predicate ContextValid(orderHashOf: (CrossChainOrder, int) -> Result<string, string>, key: string, context: OrderContext)
  {
    context.order.orderHash == key
    && IsEthereumToTezos(context.order)
    && orderHashOf(context.order.order, EthereumSdkChainNumber) == Ok(key)
    && context.dstImmutables
       == BuildImmutables(context.order, Dst, context.srcImmutables.timeLocks.deployedAt, context.dstImmutables.taker)
  }

  predicate RegistryValid(orderHashOf: (CrossChainOrder, int) -> Result<string, string>, orders: map<string, OrderContext>)
  {
    forall key :: key in orders ==> ContextValid(orderHashOf, key, orders[key])
  }

  lemma RegistryInsert(orderHashOf: (CrossChainOrder, int) -> Result<string, string>,
    orders: map<string, OrderContext>, key: string, context: OrderContext)
    requires RegistryValid(orderHashOf, orders) && ContextValid(orderHashOf, key, context)
    ensures RegistryValid(orderHashOf, orders[key := context])
  {
  }

  lemma RegistryRemove(orderHashOf: (CrossChainOrder, int) -> Result<string, string>,
    orders: map<string, OrderContext>, key: string)
    requires RegistryValid(orderHashOf, orders)
    ensures RegistryValid(orderHashOf, orders - {key})
  {
  }

  /** Destination and source phases are measured from the same instant. */
  lemma DstAnchoredAtSrcDeployment(orderHashOf: (CrossChainOrder, int) -> Result<string, string>,
    key: string, context: OrderContext, offset: int)
    requires ContextValid(orderHashOf, key, context)
    ensures PhaseStart(context.dstImmutables.timeLocks, offset) == PhaseStart(context.srcImmutables.timeLocks, offset)
  {
  }

  class Resolver {
    var orders: map<string, OrderContext>
    const evmEscrowFactoryAddress: string
    /** `mapOrderToSdkCrossChainOrder(order).getOrderHash(chain)`; `Err` when the mapping throws. */
    const orderHashOf: (CrossChainOrder, int) -> Result<string, string>
    /** `EscrowFactory(factory).getSrcEscrowAddress(immutables, implementation)` */
    const srcEscrowAddressOf: (string, Immutables, string) -> string

    predicate Valid()
      reads this
    {
      RegistryValid(orderHashOf, orders)
    }

    constructor(evmEscrowFactoryAddress: string,
      orderHashOf: (CrossChainOrder, int) -> Result<string, string>,
      srcEscrowAddressOf: (string, Immutables, string) -> string)
      ensures orders == map[] && Valid()
      ensures this.evmEscrowFactoryAddress == evmEscrowFactoryAddress
      ensures this.orderHashOf == orderHashOf && this.srcEscrowAddressOf == srcEscrowAddressOf
    {
      orders := map[];
      this.evmEscrowFactoryAddress := evmEscrowFactoryAddress;
      this.orderHashOf := orderHashOf;
      this.srcEscrowAddressOf := srcEscrowAddressOf;
    }

    /** `canSwap` accepts every order. */
    function CanSwap(order: SignedCrossChainOrder): (r: bool)
      ensures r
    {
      true
    }

    /** When `startSwap` on an Ethereum to Tezos order succeeds: both
        addresses are read, the SDK confirms the order hash, and every
        deployment step is answered. */
    predicate StartSucceeds(order: SignedCrossChainOrder, chains: ChainAnswers)
    {
      var info := order.order.orderInfo;
      IsEthereumToTezos(order)
      && chains.evmResolverAddress.Ok? && chains.tezosResolverAddress.Ok?
      && orderHashOf(order.order, EthereumSdkChainNumber) == Ok(order.orderHash)
      && chains.evmDeploySrc(order, info.makingAmount, info.takingAmount).Ok?
      && chains.evmSrcDeployEvent(chains.evmDeploySrc(order, info.makingAmount, info.takingAmount).value.block).Ok?
      && var src := chains.evmSrcDeployEvent(chains.evmDeploySrc(order, info.makingAmount, info.takingAmount).value.block).value;
         chains.tezosDeployDst(BuildImmutables(order, Dst, src.timeLocks.deployedAt, chains.tezosResolverAddress.value)).Ok?
         && chains.evmSourceImpl.Ok?
    }

    method StartSwap(order: SignedCrossChainOrder, chains: ChainAnswers)
      returns (result: Result<StartSwapResult, SwapError>, calls: seq<ChainCall>)
      modifies this
      ensures !CanSwap(order) ==> result == Err(CannotSwap) && calls == []
      ensures CanSwap(order) ==> |calls| >= 2 && calls[..2] == [EvmGetResolverAddress, TezosGetResolverAddress]
      ensures result.Ok? <==> StartSucceeds(order, chains)
      ensures result.Err? ==> orders == old(orders)
      ensures result.Ok? ==>
        && order.orderHash in orders
        && orders == old(orders)[order.orderHash := orders[order.orderHash]]
        && ContextValid(orderHashOf, order.orderHash, orders[order.orderHash])
        && var context := orders[order.orderHash];
           var info := order.order.orderInfo;
           && context.order == order
           && context.dstImmutables.taker == chains.tezosResolverAddress.value
           && Ok(context.srcEscrowDeploymentTx) == chains.evmDeploySrc(order, info.makingAmount, info.takingAmount)
           && Ok(context.srcImmutables) == chains.evmSrcDeployEvent(context.srcEscrowDeploymentTx.block)
           && Ok((context.dstEscrowDeploymentTx, context.dstEscrowAddress)) == chains.tezosDeployDst(context.dstImmutables)
           && context.srcEscrowAddress
              == srcEscrowAddressOf(evmEscrowFactoryAddress, context.srcImmutables, chains.evmSourceImpl.value)
           && result.value == StartSwapResultOf(context)
           && calls == [EvmGetResolverAddress, TezosGetResolverAddress,
                EvmDeploySrc(order, info.makingAmount, info.takingAmount),
                EvmGetSrcDeployEvent(context.srcEscrowDeploymentTx.block),
                TezosDeployDst(context.dstImmutables),
                EvmGetSourceImpl]
      ensures HasDeploy(calls) ==>
        ((IsEthereumToTezos(order) || IsTezosToEthereum(order))
         && orderHashOf(order.order, SdkChainNumber(order)) == Ok(order.orderHash))
      ensures IsTezosToEthereum(order) ==> result.Err?
      ensures !IsEthereumToTezos(order) && !IsTezosToEthereum(order) ==>
        calls == [EvmGetResolverAddress, TezosGetResolverAddress]
        && (chains.evmResolverAddress.Ok? && chains.tezosResolverAddress.Ok? ==>
              result == Err(UnsupportedChainCombination(order.order.escrowParams.srcChainId, order.order.escrowParams.dstChainId)))
      ensures RegistryValid(orderHashOf, old(orders)) ==> Valid()
    {
      calls := [];
      if !CanSwap(order) {
        return Err(CannotSwap), calls;
      }
      calls := [EvmGetResolverAddress, TezosGetResolverAddress];
      if chains.evmResolverAddress.Err? {
        return Err(AdapterFailure(chains.evmResolverAddress.error)), calls;
      }
      if chains.tezosResolverAddress.Err? {
        return Err(AdapterFailure(chains.tezosResolverAddress.error)), calls;
      }
      var evmResolverAddress := chains.evmResolverAddress.value;
      var tezosResolverAddress := chains.tezosResolverAddress.value;
      var info := order.order.orderInfo;
      if IsEthereumToTezos(order) {
        var sdkOrderHash := orderHashOf(order.order, EthereumSdkChainNumber);
        if sdkOrderHash.Err? {
          return Err(SdkFailure(sdkOrderHash.error)), calls;
        }
        if order.orderHash != sdkOrderHash.value {
          return Err(OrderHashMismatch(order.orderHash, sdkOrderHash.value)), calls;
        }
        calls := calls + [EvmDeploySrc(order, info.makingAmount, info.takingAmount)];
        var srcTx := chains.evmDeploySrc(order, info.makingAmount, info.takingAmount);
        if srcTx.Err? {
          return Err(AdapterFailure(srcTx.error)), calls;
        }
        calls := calls + [EvmGetSrcDeployEvent(srcTx.value.block)];
        var srcImmutables := chains.evmSrcDeployEvent(srcTx.value.block);
        if srcImmutables.Err? {
          return Err(AdapterFailure(srcImmutables.error)), calls;
        }
        var dstImmutables := BuildImmutables(order, Dst, srcImmutables.value.timeLocks.deployedAt, tezosResolverAddress);
        calls := calls + [TezosDeployDst(dstImmutables)];
        var dstDeployment := chains.tezosDeployDst(dstImmutables);
        if dstDeployment.Err? {
          return Err(AdapterFailure(dstDeployment.error)), calls;
        }
        calls := calls + [EvmGetSourceImpl];
        if chains.evmSourceImpl.Err? {
          return Err(AdapterFailure(chains.evmSourceImpl.error)), calls;
        }
        var srcEscrowAddress := srcEscrowAddressOf(evmEscrowFactoryAddress, srcImmutables.value, chains.evmSourceImpl.value);
        var context := OrderContext(order, srcImmutables.value, dstImmutables, srcTx.value, srcEscrowAddress,
          dstDeployment.value.0, dstDeployment.value.1);
        orders := orders[order.orderHash := context];
        assert HasDeploy(calls) ==> orderHashOf(order.order, SdkChainNumber(order)) == Ok(order.orderHash);
        return Ok(StartSwapResultOf(context)), calls;
      } else if IsTezosToEthereum(order) {
        var sdkOrderHash := orderHashOf(order.order, TezosGhostnetSdkChainNumber);
        if sdkOrderHash.Err? {
          return Err(SdkFailure(sdkOrderHash.error)), calls;
        }
        if order.orderHash != sdkOrderHash.value {
          return Err(OrderHashMismatch(order.orderHash, sdkOrderHash.value)), calls;
        }
        var srcImmutables := BuildImmutables(order, Src, None, tezosResolverAddress);
        calls := calls + [TezosDeploySrc(srcImmutables, order.signature)];
        var srcDeployment := chains.tezosDeploySrc(srcImmutables, order.signature);
        if srcDeployment.Err? {
          return Err(AdapterFailure(srcDeployment.error)), calls;
        }
      }
      return Err(UnsupportedChainCombination(order.order.escrowParams.srcChainId, order.order.escrowParams.dstChainId)), calls;
    }

    /** When `finalizeSwap` succeeds: the order is stored, it is an Ethereum
        to Tezos swap, and both withdrawals are answered. */
    predicate FinalizeSucceeds(orders: map<string, OrderContext>, orderHash: string, secret: string, chains: ChainAnswers)
    {
      orderHash in orders
      && var context := orders[orderHash];
         IsEthereumToTezos(context.order)
         && chains.tezosWithdraw(context.dstEscrowAddress, secret, context.dstImmutables).Ok?
         && chains.evmWithdraw(context.srcEscrowAddress, secret, context.srcImmutables).Ok?
    }

    method FinalizeSwap(orderHash: string, secret: string, chains: ChainAnswers)
      returns (result: Result<FinalizeSwapResult, SwapError>, calls: seq<ChainCall>)
      modifies this
      ensures result.Ok? <==> FinalizeSucceeds(old(orders), orderHash, secret, chains)
      ensures result.Err? ==> orders == old(orders)
      ensures orderHash !in old(orders) ==> result == Err(OrderNotFound(orderHash)) && calls == []
      ensures orderHash in old(orders) && IsTezosToEthereum(old(orders)[orderHash].order) ==>
        result == Err(TezosToEthereumNotSupported) && calls == []
      ensures orderHash in old(orders) && IsEthereumToTezos(old(orders)[orderHash].order) ==>
        var context := old(orders)[orderHash];
        var dstWithdrawal := chains.tezosWithdraw(context.dstEscrowAddress, secret, context.dstImmutables);
        var srcWithdrawal := chains.evmWithdraw(context.srcEscrowAddress, secret, context.srcImmutables);
        && (dstWithdrawal.Err? ==>
              result == Err(AdapterFailure(dstWithdrawal.error))
              && calls == [TezosWithdraw(context.dstEscrowAddress, secret, context.dstImmutables)])
        && (dstWithdrawal.Ok? && srcWithdrawal.Err? ==>
              result == Err(AdapterFailure(srcWithdrawal.error))
              && calls == [TezosWithdraw(context.dstEscrowAddress, secret, context.dstImmutables),
                   EvmWithdraw(context.srcEscrowAddress, secret, context.srcImmutables)])
      ensures (orderHash in old(orders) && !IsEthereumToTezos(old(orders)[orderHash].order)
               && !IsTezosToEthereum(old(orders)[orderHash].order)) ==>
        var escrow := old(orders)[orderHash].order.order.escrowParams;
        result == Err(UnsupportedChainCombination(escrow.srcChainId, escrow.dstChainId)) && calls == []
      ensures !HasDeploy(calls)
      ensures result.Ok? ==>
        var context := old(orders)[orderHash];
        && orders == old(orders) - {orderHash}
        && Ok(result.value.dstWithdrawalTx) == chains.tezosWithdraw(context.dstEscrowAddress, secret, context.dstImmutables)
        && Ok(result.value.srcWithdrawalTx) == chains.evmWithdraw(context.srcEscrowAddress, secret, context.srcImmutables)
        && calls == [TezosWithdraw(context.dstEscrowAddress, secret, context.dstImmutables),
             EvmWithdraw(context.srcEscrowAddress, secret, context.srcImmutables)]
      ensures RegistryValid(orderHashOf, old(orders)) ==> Valid()
    {
      calls := [];
      if orderHash !in orders {
        return Err(OrderNotFound(orderHash)), calls;
      }
      var context := orders[orderHash];
      if IsEthereumToTezos(context.order) {
        calls := calls + [TezosWithdraw(context.dstEscrowAddress, secret, context.dstImmutables)];
        var dstWithdrawal := chains.tezosWithdraw(context.dstEscrowAddress, secret, context.dstImmutables);
        if dstWithdrawal.Err? {
          return Err(AdapterFailure(dstWithdrawal.error)), calls;
        }
        calls := calls + [EvmWithdraw(context.srcEscrowAddress, secret, context.srcImmutables)];
        var srcWithdrawal := chains.evmWithdraw(context.srcEscrowAddress, secret, context.srcImmutables);
        if srcWithdrawal.Err? {
          return Err(AdapterFailure(srcWithdrawal.error)), calls;
        }
        orders := orders - {orderHash};
        return Ok(FinalizeSwapResult(srcWithdrawal.value, dstWithdrawal.value)), calls;
      } else if IsTezosToEthereum(context.order) {
        return Err(TezosToEthereumNotSupported), calls;
      }
      return Err(UnsupportedChainCombination(context.order.order.escrowParams.srcChainId,
        context.order.order.escrowParams.dstChainId)), calls;
    }

    /** `cancelSwap` always rejects and changes nothing. */
    method CancelSwap(orderHash: string) returns (result: Result<CancelSwapResult, SwapError>)
      ensures result == Err(CancelNotImplemented)
    {
      return Err(CancelNotImplemented);
    }
  }

  /** Under the registry invariant only the Ethereum to Tezos branch of
      `finalizeSwap` can be reached. */
  lemma StoredOrdersAreEthereumToTezos(orderHashOf: (CrossChainOrder, int) -> Result<string, string>,
    orders: map<string, OrderContext>, orderHash: string)
    requires RegistryValid(orderHashOf, orders) && orderHash in orders
    ensures IsEthereumToTezos(orders[orderHash].order) && !IsTezosToEthereum(orders[orderHash].order)
  {
    KnownChainsDistinct();
  }
}

/** The records the resolver keeps and returns for one swap. */
module ResolverModels {
  import opened Models

  /** A chain operation: its hash, the block it was included in, and the
      timestamp (seconds) the chain service reports for it. */
  datatype Transaction = Transaction(hash: string, block: string, timestamp: int)

  /** What the resolver remembers about a started swap, keyed by order hash. */
  datatype OrderContext = OrderContext(
    order: SignedCrossChainOrder,
    srcImmutables: Immutables,
    dstImmutables: Immutables,
    srcEscrowDeploymentTx: Transaction,
    srcEscrowAddress: string,
    dstEscrowDeploymentTx: Transaction,
    dstEscrowAddress: string)

  datatype StartSwapResult = StartSwapResult(
    srcEscrowDeploymentTx: Transaction,
    srcEscrowAddress: string,
    dstEscrowDeploymentTx: Transaction,
    dstEscrowAddress: string)

  datatype FinalizeSwapResult = FinalizeSwapResult(srcWithdrawalTx: Transaction, dstWithdrawalTx: Transaction)

  datatype CancelSwapResult = CancelSwapResult(srcCancellationTx: Transaction, dstCancellationTx: Transaction)

  /** The part of a context a caller of `startSwap` gets back. */
  function StartSwapResultOf(context: OrderContext): StartSwapResult
  {
    StartSwapResult(context.srcEscrowDeploymentTx, context.srcEscrowAddress,
      context.dstEscrowDeploymentTx, context.dstEscrowAddress)
  }
}

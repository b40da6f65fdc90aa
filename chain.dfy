/** Chain identifiers: the source's `ChainId = number | string`, with the
    `ChainIds` enumeration of the chains the system knows. */
module Chain {

  datatype ChainId = NumericChainId(number: int) | NamedChainId(name: string)

  const Ethereum: ChainId := NumericChainId(1)
  const TezosGhostnet: ChainId := NamedChainId("tezos:ghostnet")
  /** The SDK's BINANCE network id, used as a stand-in for Tezos when the SDK
      computes an order hash. */
  const TezosGhostnetSdkChainNumber: int := 56
  const EthereumSdkChainNumber: int := 1

  /** `===` on two chain ids: a number never equals a string. */
  lemma KnownChainsDistinct()
    ensures Ethereum != TezosGhostnet
    ensures Ethereum != NumericChainId(TezosGhostnetSdkChainNumber)
    ensures NamedChainId("1") != Ethereum
  {
  }
}

/** The Tezos side of the resolver: how escrow immutables become the
    parameters of the escrow factory's `deploy_src` entrypoint and of an
    escrow's `withdraw` entrypoint. The RPC round trips themselves (contract
    lookup, operation injection, confirmation) are not modelled; the current
    time is a parameter `now`, in seconds. */
module TezosResolverChainService {
  import opened Wrappers
  import opened JsString
  import opened BigIntCodec
  import opened Models
  import opened ResolverModels

  const OneWeekInSeconds: int := 7 * 24 * 60 * 60

  /** `value || oneWeekInSeconds`: a zero offset (falsy bigint) is replaced. */
  function EffectiveOffset(value: int): int
  {
    if value != 0 then value else OneWeekInSeconds
  }

  /** `prepareTimeLockValue`: the absolute deadline of one phase, written as
      the decimal text of milliseconds since the epoch. */
  function PrepareTimeLockValue(value: int, deployedAt: int): (r: string)
    ensures Canonical(r)
    ensures ParseBigInt(r).Some?
    ensures ParseBigInt(r).value % 1000 == 0
    ensures ParseBigInt(r).value / 1000 - deployedAt == EffectiveOffset(value)
  {
    var millis := (deployedAt + EffectiveOffset(value)) * 1000;
    ParseOfToString(millis);
    IntToDecimal(millis)
  }

  /** The `timelocks` record of `deploy_src`: seven millisecond deadlines. */
  datatype TezosTimeLocks = TezosTimeLocks(
    srcWithdrawal: string,
    srcPublicWithdrawal: string,
    srcCancellation: string,
    srcPublicCancellation: string,
    dstWithdrawal: string,
    dstPublicWithdrawal: string,
    dstCancellation: string)

  /** The anchor of the deadlines: `deployedAt` when it is truthy (present and
      non-zero), the current time otherwise. */
  function TimeLocksAnchor(timeLocks: ImmutablesTimeLocks, now: int): (anchor: int)
    ensures timeLocks.deployedAt.Some? && timeLocks.deployedAt.value != 0 ==> anchor == timeLocks.deployedAt.value
    ensures timeLocks.deployedAt.None? || timeLocks.deployedAt.value == 0 ==> anchor == now
  {
    if timeLocks.deployedAt.Some? && timeLocks.deployedAt.value != 0 then timeLocks.deployedAt.value else now
  }

  /** `prepareTimeLocks` */
  function PrepareTimeLocks(timeLocks: ImmutablesTimeLocks, now: int): TezosTimeLocks
  {
    var anchor := TimeLocksAnchor(timeLocks, now);
    var t := timeLocks.offsets;
    TezosTimeLocks(
      PrepareTimeLockValue(t.srcWithdrawal, anchor),
      PrepareTimeLockValue(t.srcPublicWithdrawal, anchor),
      PrepareTimeLockValue(t.srcCancellation, anchor),
      PrepareTimeLockValue(t.srcPublicCancellation, anchor),
      PrepareTimeLockValue(t.dstWithdrawal, anchor),
      PrepareTimeLockValue(t.dstPublicWithdrawal, anchor),
      PrepareTimeLockValue(t.dstCancellation, anchor))
  }

  /** The deadline, in seconds, that one prepared value stands for. */
  function DeadlineSeconds(text: string): int
  {
    match ParseBigInt(text)
    case Some(millis) => millis / 1000
    case None => 0
  }

  /** Every prepared deadline is the anchor plus the phase's offset, except
      that a zero offset means one week. */
  lemma PreparedDeadlines(timeLocks: ImmutablesTimeLocks, now: int)
    ensures var r := PrepareTimeLocks(timeLocks, now); var a := TimeLocksAnchor(timeLocks, now); var t := timeLocks.offsets;
      DeadlineSeconds(r.srcWithdrawal) == a + EffectiveOffset(t.srcWithdrawal) &&
      DeadlineSeconds(r.srcPublicWithdrawal) == a + EffectiveOffset(t.srcPublicWithdrawal) &&
      DeadlineSeconds(r.srcCancellation) == a + EffectiveOffset(t.srcCancellation) &&
      DeadlineSeconds(r.srcPublicCancellation) == a + EffectiveOffset(t.srcPublicCancellation) &&
      DeadlineSeconds(r.dstWithdrawal) == a + EffectiveOffset(t.dstWithdrawal) &&
      DeadlineSeconds(r.dstPublicWithdrawal) == a + EffectiveOffset(t.dstPublicWithdrawal) &&
      DeadlineSeconds(r.dstCancellation) == a + EffectiveOffset(t.dstCancellation)
  {
  }

  /** A zero `deployedAt` is treated exactly like an absent one. */
  lemma ZeroDeployedAtMeansNow(timeLocks: ImmutablesTimeLocks, now: int)
    requires timeLocks.deployedAt == Some(0)
    ensures PrepareTimeLocks(timeLocks, now) == PrepareTimeLocks(timeLocks.(deployedAt := None), now)
  {
  }

  predicate NoZeroOffset(t: TimeLocks)
  {
    t.srcWithdrawal != 0 && t.srcPublicWithdrawal != 0 && t.srcCancellation != 0 && t.srcPublicCancellation != 0
    && t.dstWithdrawal != 0 && t.dstPublicWithdrawal != 0 && t.dstCancellation != 0
  }

  /** Without zero offsets, ordered phases stay ordered on Tezos. */
  lemma NonZeroOffsetsKeepPhaseOrder(timeLocks: ImmutablesTimeLocks, now: int)
    requires NoZeroOffset(timeLocks.offsets) && TimeLocksWellFormed(timeLocks.offsets)
    ensures var r := PrepareTimeLocks(timeLocks, now);
      DeadlineSeconds(r.srcWithdrawal) <= DeadlineSeconds(r.srcPublicWithdrawal)
      <= DeadlineSeconds(r.srcCancellation) <= DeadlineSeconds(r.srcPublicCancellation)
    ensures var r := PrepareTimeLocks(timeLocks, now);
      DeadlineSeconds(r.dstWithdrawal) <= DeadlineSeconds(r.dstPublicWithdrawal) <= DeadlineSeconds(r.dstCancellation)
  {
    PreparedDeadlines(timeLocks, now);
  }

  /** The client's default policy starts both withdrawal phases at offset 0,
      which the one-week replacement moves after every other phase. */
  lemma DefaultPolicyWithdrawalMovesLast(timeLocks: ImmutablesTimeLocks, now: int)
    requires timeLocks.offsets == DefaultTimeLocks
    ensures var r := PrepareTimeLocks(timeLocks, now);
      DeadlineSeconds(r.srcWithdrawal) > DeadlineSeconds(r.srcPublicCancellation)
      && DeadlineSeconds(r.srcWithdrawal) - TimeLocksAnchor(timeLocks, now) == OneWeekInSeconds
    ensures var r := PrepareTimeLocks(timeLocks, now);
      DeadlineSeconds(r.dstWithdrawal) > DeadlineSeconds(r.dstCancellation)
  {
    PreparedDeadlines(timeLocks, now);
  }

  /** The `token` variant of `deploy_src`. */
  datatype TezosToken = FA2(address: string, tokenId: string) | Tez | FA12(address: string)

  /** A truthy token id selects FA2; otherwise the address `tez` selects the
      native token; anything else is an FA1.2 contract. */
  function TokenParam(immutables: Immutables): (t: TezosToken)
    ensures t.FA2? <==> immutables.tokenId.Some? && immutables.tokenId.value != ""
    ensures t.FA2? ==> t.address == immutables.token && t.tokenId == immutables.tokenId.value
    ensures t.Tez? <==> !t.FA2? && immutables.token == "tez"
    ensures t.FA12? ==> t.address == immutables.token
  {
    if immutables.tokenId.Some? && immutables.tokenId.value != "" then FA2(immutables.token, immutables.tokenId.value)
    else if immutables.token == "tez" then Tez
    else FA12(immutables.token)
  }

  datatype DeploySrcParams = DeploySrcParams(
    orderHash: string,
    hashLock: string,
    maker: string,
    taker: string,
    token: TezosToken,
    amount: string,
    safetyDeposit: string,
    timeLocks: TezosTimeLocks)

  /** The parameters `deploySrc` sends to the escrow factory. */
  function DeploySrcParamsOf(immutables: Immutables, now: int): (p: DeploySrcParams)
    ensures p.maker == immutables.maker && p.taker == immutables.taker
    ensures p.token == TokenParam(immutables)
    ensures Canonical(p.amount) && ParseBigInt(p.amount) == Some(immutables.amount)
    ensures Canonical(p.safetyDeposit) && ParseBigInt(p.safetyDeposit) == Some(immutables.safetyDeposit)
    ensures p.timeLocks == PrepareTimeLocks(immutables.timeLocks, now)
  {
    ParseOfToString(immutables.amount);
    ParseOfToString(immutables.safetyDeposit);
    DeploySrcParams(
      RemoveFirst(immutables.orderHash, "0x"),
      RemoveFirst(immutables.hashLock, "0x"),
      immutables.maker,
      immutables.taker,
      TokenParam(immutables),
      IntToDecimal(immutables.amount),
      IntToDecimal(immutables.safetyDeposit),
      PrepareTimeLocks(immutables.timeLocks, now))
  }

  /** The Tezos entrypoints take hex bytes without the `0x` prefix. */
  lemma HexPrefixStripped(immutables: Immutables, now: int)
    requires |immutables.orderHash| >= 2 && immutables.orderHash[..2] == "0x"
    requires |immutables.hashLock| >= 2 && immutables.hashLock[..2] == "0x"
    ensures DeploySrcParamsOf(immutables, now).orderHash == immutables.orderHash[2..]
    ensures DeploySrcParamsOf(immutables, now).hashLock == immutables.hashLock[2..]
  {
    HexPrefixRemoved(immutables.orderHash);
    HexPrefixRemoved(immutables.hashLock);
  }

  lemma HexPrefixRemoved(s: string)
    ensures |s| >= 2 && s[..2] == "0x" ==> RemoveFirst(s, "0x") == s[2..]
  {
    if |s| >= 2 && s[..2] == "0x" {
      assert OccursAt(s, "0x", 0);
    }
  }

  /** The tez attached to `deploy_src`: the safety deposit in tez (one tez is
      a million mutez). */
  function AttachedTez(safetyDeposit: int): (r: real)
    ensures r * 1000000.0 == safetyDeposit as real
  {
    safetyDeposit as real / 1000000.0
  }

  /** The `withdraw` parameter: the secret's hex bytes. */
  function WithdrawParam(secret: string): (r: string)
    ensures |secret| >= 2 && secret[..2] == "0x" ==> r == secret[2..]
    ensures (forall k :: 0 <= k <= |secret| ==> !OccursAt(secret, "0x", k)) ==> r == secret
  {
    HexPrefixRemoved(secret);
    RemoveFirst(secret, "0x")
  }

  /** The transaction record of an applied operation: its block level as
      decimal text, and the service's clock instead of the block time. */
  function OperationTransaction(operationHash: string, includedInBlock: int, now: int): (tx: Transaction)
    ensures tx.hash == operationHash && tx.timestamp == now
    ensures ParseBigInt(tx.block) == Some(includedInBlock)
  {
    ParseOfToString(includedInBlock);
    Transaction(operationHash, IntToDecimal(includedInBlock), now)
  }

  /** `deployDst` is a placeholder: a fixed transaction and escrow address. */
  function DeployDst(immutables: Immutables, now: int): (r: (Transaction, string))
    ensures r.0.timestamp == now && r.1 == "tz1-dst-escrow-address"
  {
    (Transaction("o1-dst", "b1-dst", now), "tz1-dst-escrow-address")
  }

  /** `cancel` is a placeholder too. */
  function Cancel(escrowAddress: string, immutables: Immutables, now: int): (tx: Transaction)
    ensures tx.timestamp == now
  {
    Transaction("o1-cancel", "b1-cancel", now)
  }

  /** No escrow is deployed or cancelled: the placeholders ignore their input. */
  lemma PlaceholdersIgnoreInput(a: Immutables, b: Immutables, escrowA: string, escrowB: string, now: int)
    ensures DeployDst(a, now) == DeployDst(b, now)
    ensures Cancel(escrowA, a, now) == Cancel(escrowB, b, now)
  {
  }
}

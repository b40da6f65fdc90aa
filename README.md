# 1inch Fusion+ cross-chain swaps between Ethereum and Tezos: a Dafny model

This project models the core of a cross-chain swap system. In it, a maker signs
an order to swap a token on one chain (Ethereum or Tezos) for a token on the
other. A resolver then locks both sides in hash-time-locked escrows and
completes the swap by withdrawing from both escrows with the maker's secret.
The parts modelled are these:

- **Resolver** (`resolver.dfy`). A class whose `orders` map holds one
  `OrderContext` per started swap. `StartSwap` checks the order hash, picks a
  branch by chain pair, deploys the source escrow on Ethereum, builds the Tezos
  destination immutables and deploys that escrow, then stores the context.
  `FinalizeSwap` withdraws on the destination chain, then on the source chain,
  then forgets the order. `CancelSwap` always fails. The chain adapters are not
  modelled: their answers come in through a `ChainAnswers` value, and every
  adapter call made is returned, with its arguments, as a `ChainCall` trace.
  The two SDK computations (order hash, source escrow address) are
  uninterpreted functions fixed at construction.
- **Order data model and wire format** (`models.dfy`, `dtos.dfy`,
  `resolver_models.dfy`, `chain.dfy`). Order, escrow and auction records.
  Well-formedness is time-lock phase ordering plus a 40-bit nonce. The DTO
  mirror types write every `bigint` as a decimal string.
- **Mappers** (`mappers.dfy`, `mapper_properties.dfy`). They map model to DTO
  and DTO to model, and the lemmas prove the round trips. `bigint.toString()`
  and `BigInt(string)` are modelled exactly in `bigint_codec.dfy`, including
  white space, the empty string, signs and `0x`/`0o`/`0b` literals.
- **Tezos parameter preparation** (`tezos_resolver_chain_service.dfy`). It
  turns relative time-lock offsets into absolute millisecond deadlines, where
  a zero offset means one week. It also picks the FA2/tez/FA1.2 token variant
  and strips `0x` from hashes and the secret.
- **Balance record** (`balance_provider.dfy`). An imperative loop that builds
  a map keyed by lower-cased token symbol. The record is a plain object, so a
  symbol that lower-cases to `__proto__` hits the inherited prototype setter
  and leaves no entry; the model skips that key.
- **`trimSlashes`** (`text_utils.dfy`).
- **Command-line parsing of the client** (`app.dfy`): command lookup, chain
  names, `<chain>:<token>` arguments, and the checks of the `swap` command.

JavaScript built-ins are modelled in `js_string.dfy`: `trim`, `toLowerCase`
(ASCII letters only), `split` on one character, and `replace` of a first
occurrence. JavaScript `bigint`s are unbounded `int`s. JavaScript `number`
fields that are only copied are `real`.

Where the code and its documentation disagree, the model follows the code:

- A Tezos-to-Ethereum `startSwap` deploys the Tezos source escrow, then throws
  "Unsupported chain combination". The code that would store its context is
  commented out.
- `finalizeSwap` never checks that the secret hashes to the order's hash-lock.
  It passes the secret straight to both withdrawals.
- The documented defaulting of an absent `receiver` to `maker` is not done by
  the mapper, so the model keeps `receiver` optional.
- The time-lock documentation describes consecutive phases with `<=`, but no
  code enforces it. `TimeLocksWellFormed` is a predicate the lemmas assume
  where they need it.
- `ChainId` is the source's open union `number | string`
  (`NumericChainId | NamedChainId`), not a closed enumeration. The three named
  constants are `Ethereum = 1`, `TezosGhostnet = "tezos:ghostnet"` and the SDK
  stand-in chain number 56.

## Model

| member | source | states |
|---|---|---|
| Chain.KnownChainsDistinct | packages/common/src/models/chain.ts:3-10 | Ethereum and Tezos ghostnet are different chain ids, and the SDK stand-in number differs from Ethereum's |
| Models.PhaseStart | packages/common/src/models/core.ts:145-157 | a phase has an absolute start exactly when `deployedAt` is present, and that start minus the offset is `deployedAt` |
| Models.DefaultTimeLocksWellFormed | packages/client/src/swapManager.ts:31-39 | the client's default offsets (0, 120, 121, 122 / 0, 100, 101) satisfy both phase orderings, even strictly |
| Models.PhaseStartsOrdered | packages/common/src/models/core.ts:3-32 | ordered offsets give ordered absolute phase starts on both chains, whatever `deployedAt` is |
| BigIntCodec.ParseOfToString | packages/common/src/mappers/core.ts:58-68 | `BigInt(n.toString()) == n` for every integer, and `n.toString()` is canonical decimal text |
| BigIntCodec.ToStringOfParse | packages/common/src/mappers/core.ts:190-200 | `BigInt(s).toString() == s` holds if and only if `s` is canonical decimal text (no sign on zero, no leading zeros, no white space, no radix prefix) |
| BigIntCodec.EmptyTextIsZero | packages/common/src/mappers/core.ts:209 | `BigInt("")` is 0, which re-encodes as "0" |
| Mappers.MapAll | packages/common/src/mappers/core.ts:176-188 | mapping a list succeeds exactly when every element maps; then the length is kept and each element is mapped |
| MapperProperties.OptionalIntRoundTrip | packages/common/src/mappers/core.ts:44-56 | an optional bigint survives model to DTO to model under both the `!== undefined` and the truthiness decoding, absent staying absent and 0 staying 0 |
| MapperProperties.OptionalTextRoundTrip | packages/common/src/mappers/core.ts:176-188 | an optional canonical wire integer survives DTO to model to DTO |
| MapperProperties.TimeLocksRoundTrip | packages/common/src/mappers/core.ts:58-68 | all seven offsets survive model to DTO to model at any size, and the DTO is canonical |
| MapperProperties.OrderInfoRoundTrip | packages/common/src/mappers/core.ts:70-80 | order info survives the round trip: assets copied, absent salt stays absent, salt 0 stays 0 |
| MapperProperties.EscrowParamsRoundTrip | packages/common/src/mappers/core.ts:82-91 | escrow parameters survive the round trip, chain ids untouched |
| MapperProperties.AuctionPointsRoundTrip | packages/common/src/mappers/core.ts:20-28 | a list of auction points, mapped to the wire element by element and back, is the same list |
| MapperProperties.GasCostRoundTrip | packages/common/src/mappers/core.ts:13-18 | gas-cost estimates survive the round trip |
| MapperProperties.AuctionDetailsRoundTrip | packages/common/src/mappers/core.ts:20-28 | auction details survive the round trip, including points and an absent or present gas cost |
| MapperProperties.WhitelistRoundTrip | packages/common/src/mappers/core.ts:37-42 | the whitelist survives the round trip element by element |
| MapperProperties.FeesRoundTrip | packages/common/src/mappers/core.ts:46-51 | fees survive the round trip, presence of integrator fee and bank fee kept |
| MapperProperties.DetailsRoundTrip | packages/common/src/mappers/core.ts:44-56 | details survive the round trip: presence of fees and resolving start time kept, lists mapped element-wise |
| MapperProperties.ExtraRoundTrip | packages/common/src/mappers/core.ts:93-103 | order extras survive the round trip, every optional field keeping its presence |
| MapperProperties.OrderRoundTrip | packages/common/src/mappers/core.ts:105-113 | a whole order survives model to DTO to model, and its DTO is canonical |
| MapperProperties.SignedOrderRoundTrip | packages/common/src/mappers/core.ts:115-121 | a signed order survives, signature and order hash untouched |
| MapperProperties.ImmutablesRoundTrip | packages/common/src/mappers/core.ts:123-134 | the round trip clears `tokenId` and `deployedAt` and keeps everything else; it is the identity exactly when both are absent |
| MapperProperties.TimeLocksDtoRoundTrip | packages/common/src/mappers/core.ts:190-200 | DTO to model to DTO gives back the seven-string DTO if and only if every string is canonical |
| MapperProperties.GasCostDtoRoundTrip | packages/common/src/mappers/core.ts:145-150 | a canonical gas-cost DTO decodes and re-encodes to itself |
| MapperProperties.AuctionDetailsDtoRoundTrip | packages/common/src/mappers/core.ts:152-160 | a canonical auction DTO decodes and re-encodes to itself |
| MapperProperties.AuctionPointsDtoRoundTrip | packages/common/src/mappers/core.ts:152-160 | a list of wire auction points, decoded element by element and re-encoded, is the same list |
| MapperProperties.WhitelistDtoRoundTrip | packages/common/src/mappers/core.ts:169-174 | a canonical whitelist DTO decodes and re-encodes to itself |
| MapperProperties.FeesDtoRoundTrip | packages/common/src/mappers/core.ts:179-183 | a canonical fees DTO decodes and re-encodes to itself |
| MapperProperties.DetailsDtoRoundTrip | packages/common/src/mappers/core.ts:176-188 | a canonical details DTO decodes and re-encodes to itself |
| MapperProperties.OrderInfoDtoRoundTrip | packages/common/src/mappers/core.ts:202-212 | a canonical order-info DTO decodes and re-encodes to itself |
| MapperProperties.EscrowParamsDtoRoundTrip | packages/common/src/mappers/core.ts:214-223 | a canonical escrow-params DTO decodes and re-encodes to itself |
| MapperProperties.ExtraDtoRoundTrip | packages/common/src/mappers/core.ts:225-235 | a canonical extras DTO decodes and re-encodes to itself |
| MapperProperties.OrderDtoRoundTrip | packages/common/src/mappers/core.ts:237-245 | an order DTO decodes and re-encodes to itself if and only if every integer string in it is canonical |
| MapperProperties.SignedOrderDtoRoundTrip | packages/common/src/mappers/core.ts:247-253 | a signed order DTO decodes and re-encodes to itself if and only if its order's integer strings are canonical; decoding succeeds exactly when the order decodes, and keeps the signature and order hash |
| MapperProperties.ImmutablesDtoRoundTrip | packages/common/src/mappers/core.ts:255-266 | an immutables DTO decodes and re-encodes to itself if and only if its integer strings are canonical; decoding copies order hash, hash-lock, maker, taker and token, and sets no `tokenId` and no `deployedAt` |
| MapperProperties.NonIntegerFieldsToDto | packages/common/src/mappers/core.ts:6-11 | escrow factory, maker, receiver, both assets (address and token id), hash-lock, chain ids, initial rate bump, every auction point's delay and coefficient, every whitelist address, the presence of fees and integrator fee and the integrator-fee receiver, permit, source and flags are copied unchanged to the DTO |
| MapperProperties.OrderInfoFieldsToModel | packages/common/src/mappers/core.ts:202-212 | decoding order info copies the assets, maker and receiver unchanged |
| MapperProperties.EscrowParamsFieldsToModel | packages/common/src/mappers/core.ts:214-223 | decoding escrow parameters copies the hash-lock and both chain ids unchanged |
| MapperProperties.AuctionFieldsToModel | packages/common/src/mappers/core.ts:152-160 | decoding an auction copies the initial rate bump and every point's delay and coefficient |
| MapperProperties.WhitelistFieldsToModel | packages/common/src/mappers/core.ts:169-174 | decoding a whitelist keeps its length and every entry's address |
| MapperProperties.FeesFieldsToModel | packages/common/src/mappers/core.ts:176-184 | decoding fees keeps the presence of the fees and of the integrator fee, and copies the integrator-fee receiver |
| MapperProperties.ExtraFieldsToModel | packages/common/src/mappers/core.ts:225-235 | decoding extras copies permit, source and the three flags |
| MapperProperties.NonIntegerFieldsToModel | packages/common/src/mappers/core.ts:237-245 | decoding an order copies the same fields unchanged: escrow factory, maker, receiver, both assets, hash-lock, chain ids, initial rate bump, auction points, whitelist addresses, fee presence and integrator-fee receiver, permit, source and flags |
| MapperProperties.AbsentReceiverStaysAbsent | packages/common/src/mappers/core.ts:210 | an absent wire receiver is not replaced by the maker |
| MapperProperties.EmptySaltBecomesZero | packages/common/src/mappers/core.ts:209 | a present empty salt decodes to 0 and re-encodes as "0" |
| MapperProperties.EmptyBankFeeBecomesAbsent | packages/common/src/mappers/core.ts:182 | a present empty bank fee is falsy, so it decodes to absent and stays absent |
| TextUtils.TrimSlashes | packages/common/src/utils/textUtils.ts:1-12 | the input is the result with at most one leading `/` and at most one trailing `/` put back; a value without either is unchanged; the length drops by 0, 1 or 2 |
| TextUtils.LoneSlashBecomesEmpty | packages/common/src/utils/textUtils.ts:5-6 | `"/"` becomes `""` |
| TextUtils.TrimSlashesNotIdempotent | packages/common/src/utils/textUtils.ts:2-11 | `"//a"` gives `"/a"`, which gives `"a"` |
| TezosResolverChainService.PrepareTimeLockValue | packages/server/src/services/resolver/tezosResolverChainService.ts:107-109 | the text is canonical decimal milliseconds, a whole number of seconds, equal to the anchor plus the offset, with 0 replaced by one week (604800 s) |
| TezosResolverChainService.TimeLocksAnchor | packages/server/src/services/resolver/tezosResolverChainService.ts:112 | the anchor is `deployedAt` when it is present and non-zero, the current time otherwise |
| TezosResolverChainService.PreparedDeadlines | packages/server/src/services/resolver/tezosResolverChainService.ts:111-124 | all seven deadlines are measured from one anchor, each by its own offset |
| TezosResolverChainService.ZeroDeployedAtMeansNow | packages/server/src/services/resolver/tezosResolverChainService.ts:112 | `deployedAt = 0` prepares exactly what an absent `deployedAt` prepares |
| TezosResolverChainService.NonZeroOffsetsKeepPhaseOrder | packages/server/src/services/resolver/tezosResolverChainService.ts:107-124 | with no zero offset, well-ordered offsets give deadlines in the same order on both sides |
| TezosResolverChainService.DefaultPolicyWithdrawalMovesLast | packages/server/src/services/resolver/tezosResolverChainService.ts:108 | under the client's default policy the zero withdrawal offsets become one week, so private withdrawal starts after public cancellation (source) and after cancellation (destination) |
| TezosResolverChainService.TokenParam | packages/server/src/services/resolver/tezosResolverChainService.ts:24-37 | a non-empty `tokenId` gives `fA2(token, tokenId)`; otherwise `tez` gives `tEZ`; otherwise `fA12(token)` |
| TezosResolverChainService.DeploySrcParamsOf | packages/server/src/services/resolver/tezosResolverChainService.ts:17-41 | maker and taker are copied, amount and safety deposit are canonical decimal texts of the immutables' values, and the token and time locks are the prepared ones |
| TezosResolverChainService.HexPrefixStripped | packages/server/src/services/resolver/tezosResolverChainService.ts:20-21 | a `0x`-prefixed order hash and hash-lock lose exactly that prefix |
| TezosResolverChainService.HexPrefixRemoved | packages/server/src/services/resolver/tezosResolverChainService.ts:20 | replacing the first `0x` of a `0x`-prefixed text removes the prefix |
| TezosResolverChainService.AttachedTez | packages/server/src/services/resolver/tezosResolverChainService.ts:45 | the attached amount is the safety deposit in tez (a million mutez each) |
| TezosResolverChainService.WithdrawParam | packages/server/src/services/resolver/tezosResolverChainService.ts:76 | a `0x`-prefixed secret loses the prefix; a secret without `0x` is sent unchanged |
| TezosResolverChainService.OperationTransaction | packages/server/src/services/resolver/tezosResolverChainService.ts:82-86 | a transaction record carries the operation hash, the block level as decimal text, and the service's clock as timestamp |
| TezosResolverChainService.DeployDst | packages/server/src/services/resolver/tezosResolverChainService.ts:61-72 | the destination deployment is a placeholder: fixed escrow address, timestamp from the clock |
| TezosResolverChainService.Cancel | packages/server/src/services/resolver/tezosResolverChainService.ts:89-97 | cancellation is a placeholder whose timestamp is the clock |
| TezosResolverChainService.PlaceholdersIgnoreInput | packages/server/src/services/resolver/tezosResolverChainService.ts:61-97 | the placeholder deployment and cancellation give the same answer whatever the immutables and escrow address |
| BalanceProvider.GetBalances | packages/common/src/balanceProviders/balanceProvider.ts:9-20 | the keys are exactly the lower-cased symbols of the tokens other than `__proto__` (whose assignment on a plain object creates no own key), and each key holds the balance at the last token index with that key (undefined when the oracle's answer is too short) |
| BalanceProvider.KeysAreLowerCasedSymbols | packages/common/src/balanceProviders/balanceProvider.ts:12-17 | a text is a key if and only if it is not `__proto__` and some token's lower-cased symbol equals it |
| BalanceProvider.OneBalancePerTokenFillsEveryEntry | packages/common/src/balanceProviders/balanceProvider.ts:10-14 | when the oracle returns one balance per token, no entry is undefined |
| BalanceProvider.KeyCount | packages/common/src/balanceProviders/balanceProvider.ts:12-17 | there are at most as many keys as tokens, and exactly as many if and only if the lower-cased symbols are distinct and none is `__proto__` |
| BalanceProvider.KeysOfSnoc | packages/common/src/balanceProviders/balanceProvider.ts:16 | one more loop step adds exactly the new token's key, or nothing when that key is `__proto__` |
| BalanceProvider.DistinctKeysOfSnoc | packages/common/src/balanceProviders/balanceProvider.ts:12-17 | the keys of a list are distinct if and only if those of its prefix are and the last key differs from every earlier one |
| BalanceProvider.ProtoSymbolLeavesNoEntry | packages/common/src/balanceProviders/balanceProvider.ts:11-16 | tokens `__PROTO__` and `USDC` give the single key `usdc` |
| Resolver.Resolver.constructor | packages/server/src/services/resolver/resolver.ts:26-40 | a new resolver has no orders and satisfies the registry invariant |
| Resolver.Resolver.CanSwap | packages/server/src/services/resolver/resolver.ts:42-45 | every order is accepted |
| Resolver.Resolver.StartSwap | packages/server/src/services/resolver/resolver.ts:47-176 | both resolver addresses are read first; success happens exactly on an Ethereum-to-Tezos order whose SDK hash equals its own hash and whose every adapter step succeeds; success stores a context under the order hash, leaves every other key unchanged, and returns that context's transactions and addresses; the context records the chain's answers, and its destination immutables are anchored at the source `deployedAt` with the Tezos resolver as taker; a deploy call happens only after the source chain's hash check passed; Tezos to Ethereum always fails; any other pair makes no call past the address reads and fails as unsupported; every failure leaves `orders` unchanged; the registry invariant is preserved |
| Resolver.Resolver.FinalizeSwap | packages/server/src/services/resolver/resolver.ts:178-218 | an unknown hash fails with no call; success happens exactly on a stored Ethereum-to-Tezos order whose two withdrawals succeed; then the destination withdraw comes before the source withdraw, both with the stored escrow addresses and immutables, and exactly that key is removed; a failed destination withdraw is reported and no source withdraw is sent; a failed source withdraw is reported after both calls; a stored Tezos-to-Ethereum order fails with no call; any other stored pair fails as unsupported with no call; every failure leaves `orders` unchanged; no deploy is ever made; the registry invariant is preserved |
| Resolver.Resolver.CancelSwap | packages/server/src/services/resolver/resolver.ts:220-222 | cancelling always fails as not implemented and changes nothing |
| Resolver.BuildImmutablesSides | packages/server/src/services/resolver/resolver.ts:224-256 | the source side takes maker asset, making amount and source deposit; the destination side takes taker asset, taking amount and destination deposit; both copy order hash, hash-lock, maker and all seven offsets with the given `deployedAt` and taker, and never set `tokenId` |
| Resolver.BuiltImmutablesPhasesOrdered | packages/server/src/services/resolver/resolver.ts:245-254 | immutables built from a well-formed order have source phases that start in order |
| Resolver.RegistryInsert | packages/server/src/services/resolver/resolver.ts:117 | storing a valid context keeps the registry invariant |
| Resolver.RegistryRemove | packages/server/src/services/resolver/resolver.ts:206 | deleting a key keeps the registry invariant |
| Resolver.DstAnchoredAtSrcDeployment | packages/server/src/services/resolver/resolver.ts:84-90 | in a stored context every destination phase starts at the same instant as the source phase with that offset |
| Resolver.StoredOrdersAreEthereumToTezos | packages/server/src/services/resolver/resolver.ts:184-217 | under the registry invariant a stored order is Ethereum to Tezos, so the other `finalizeSwap` branches cannot be reached |
| ClientApp.IsEvmChain | packages/client/src/app.ts:100-113 | after lower-casing, `evm`/`ethereum`/`eth` give true, `tezos`/`xtz`/`tez` give false, every other name is an "Unknown chain" error |
| ClientApp.IsEvmChainIgnoresCase | packages/client/src/app.ts:101 | a chain name and its lower-cased form are classified alike |
| ClientApp.IsEvmChainExamples | packages/client/src/app.ts:100-113 | `ETH` is EVM, `Tez` is Tezos, the empty name is an error |
| ClientApp.SplitChainAndToken | packages/client/src/app.ts:119 | `split(':', 2)` gives the text before the first `:` and, when there is one, the text up to the second `:` |
| ClientApp.ParseChainAndToken | packages/client/src/app.ts:115-124 | a missing or empty argument is the format error; otherwise it succeeds if and only if the first `:` is neither at the start nor followed by the end or another `:`; the result is the text before the first `:` and the text between the first and second `:` |
| ClientApp.ParseChainAndTokenExamples | packages/client/src/app.ts:119-123 | `eth:usdc:extra` gives `(eth, usdc)`; `eth`, `:usdc` and `eth:` are rejected |
| ClientApp.FindCommand | packages/client/src/app.ts:84 | the index of the first command listing the name among its aliases, or the number of commands when none does |
| ClientApp.ReadCommand | packages/client/src/app.ts:82-98 | the first piece of the trimmed input split on single spaces selects a command whose aliases contain it exactly, and the remaining pieces are its arguments; no match is "Unknown command" and dispatches nothing |
| ClientApp.AliasesAreUnique | packages/client/src/app.ts:20-26 | no alias belongs to two commands |
| ClientApp.ReadCommandIsCaseSensitive | packages/client/src/app.ts:83-95 | `HELP` is an unknown command: lookup is case-sensitive |
| ClientApp.ReadCommandKeepsEmptyArguments | packages/client/src/app.ts:83-88 | `b  x` dispatches balance with the arguments `""` and `x`: every single space separates an argument |
| ClientApp.SwapCommand | packages/client/src/app.ts:126-176 | fewer than four arguments give the usage message and nothing else; an invalid input amount is reported before the chain arguments are parsed; an EVM order is created only for two parsed chain arguments with an EVM source chain and tokens found on both chains, with the parsed amounts |
| ClientApp.DstChainNameIgnored | packages/client/src/app.ts:148-170 | the destination chain name is never checked: only its token symbol affects the outcome |
| ClientApp.TezosSourceDoesNothing | packages/client/src/app.ts:157 | a Tezos source chain passes every check and then nothing is done |
| ClientApp.ExcessArgumentsIgnored | packages/client/src/app.ts:150-153 | arguments after the fourth never change the outcome |

## Left out

- Chain adapters' RPC, signing and confirmation (EVM and Tezos). Their answers are inputs to `StartSwap` and `FinalizeSwap`, and any of them may fail.
- The EVM adapter as written cannot serve `startSwap`: `EvmResolverChainService` has no `getResolverAddress` (resolver.ts line 53 would throw), and its `send` returns `{txHash, blockTimestamp, blockHash}` (evmResolverChainService.ts lines 77-86), so the `.block` read at resolver.ts line 81 is undefined; the model assumes an adapter that answers both.
- The SDK wrappers: order conversion, order hash, escrow addresses, the deploy event and the escrow implementation lookup. These are thin wrappers over an external SDK. The order hash and the source escrow address are uninterpreted functions. The event's immutables are taken to be already mapped, so the conversions between SDK and project `Immutables` are not modelled.
- Resolver.Resolver.StartSwap: `Promise.all` over the two address reads is modelled as two sequential reads that are both always issued. When both fail, the error reported is the EVM one, whichever promise rejected first.
- Resolver.Resolver.StartSwap: the taker traits passed to the EVM deploy are reduced to the amount and the amount threshold. Writing a time into the source immutables at resolver.ts line 145 has no observable effect, because the branch then throws, so it is not modelled.
- Resolver.Resolver.FinalizeSwap: the conversion of the stored source immutables to SDK form is the identity here, since SDK immutables are not modelled.
- Console logging in the resolver and the client is not modelled, including the client's warning about excess arguments.
- TezosResolverChainService.AttachedTez: the floating-point rounding of `Number(...) / 1_000_000` is not modelled. The result is the exact quotient.
- TezosResolverChainService: `deploySrc` and `withdraw` build their parameters as modelled, but the contract lookup, the operation send and the reading of the originated address are RPC and are not modelled.
- BalanceProvider.GetBalances: `getBalancesInternal` is an oracle whose answer is passed in. The `rawFormat` flag only selects the oracle's balance type.
- JsString.ToLower: only ASCII letters are lower-cased. The full Unicode case mapping of `toLowerCase` is not modelled, which matters for `isEvmChain` and for balance keys with non-ASCII symbols.
- ClientApp.SwapCommand: `Number(...)` with `isNonNegativeNumber` is an oracle (`amountOf`), because it tests IEEE doubles. The token lookups are oracles. `createEvmOrder` (randomness, hashing, signing) is represented only by the outcome that would call it.
- The other command handlers (help, exit, top-up, balance) and the readline loop are not modelled.
- `formatOrdinals` is not modelled, because it depends on `Intl.PluralRules`.
- The HTTP server, its routes, configuration and environment loading, and the validation predicates are not modelled.
- Null JSON values are not modelled: an optional wire field is either absent or a string.
- When a DTO integer string is not accepted by `BigInt`, the mapper's error is `None`, without the SyntaxError message.
- The client builds its orders with destination chain id 146 (swapManager.ts line 42). That id is neither of the resolver's supported pairs. Client order building is not modelled.

/** The command-line client's input handling: splitting a command line and
    finding its command, recognising chain names, splitting a
    `<chain>:<token>` argument, and the checks the `swap` command makes
    before it creates an order. Console output, the readline loop and the
    other command handlers are not modelled. */
module ClientApp {
  import opened Wrappers
  import opened JsString

  /** `isEvmChain`: the chain name, lower-cased, is one of the three EVM
      names or one of the three Tezos names; any other name is an error. */
  function IsEvmChain(chainName: string): (r: Result<bool, string>)
    ensures r == Ok(true) <==> ToLower(chainName) in ["evm", "ethereum", "eth"]
    ensures r == Ok(false) <==> ToLower(chainName) in ["tezos", "xtz", "tez"]
    ensures r.Err? ==> r.error == "Unknown chain: " + chainName
  {
    var name := ToLower(chainName);
    if name == "evm" || name == "ethereum" || name == "eth" then Ok(true)
    else if name == "tezos" || name == "xtz" || name == "tez" then Ok(false)
    else Err("Unknown chain: " + chainName)
  }

  lemma {:induction false} ToLowerIdempotent(s: string)
    ensures ToLower(ToLower(s)) == ToLower(s)
  {
    if s != [] {
      ToLowerIdempotent(s[1..]);
    }
  }

  /** The comparison ignores the case of ASCII letters. */
  lemma IsEvmChainIgnoresCase(chainName: string)
    ensures IsEvmChain(ToLower(chainName)).Ok? == IsEvmChain(chainName).Ok?
    ensures IsEvmChain(chainName).Ok? ==> IsEvmChain(ToLower(chainName)) == IsEvmChain(chainName)
  {
    ToLowerIdempotent(chainName);
  }

  lemma LowerCaseExamples()
    ensures ToLower("ETH") == "eth" && ToLower("Tez") == "tez"
  {
    var e := ToLower("ETH");
    assert e[0] == 'e' && e[1] == 't' && e[2] == 'h';
    var t := ToLower("Tez");
    assert t[0] == 't' && t[1] == 'e' && t[2] == 'z';
  }

  lemma IsEvmChainExamples()
    ensures IsEvmChain("ETH") == Ok(true) && IsEvmChain("Tez") == Ok(false)
    ensures IsEvmChain("").Err?
  {
    LowerCaseExamples();
  }

  const MissingChainAndToken := "Chain and token must be specified in the format <chain>:<tokenSymbol>"

  /** `raw.split(':', 2)`: at most the first two pieces. */
  function SplitChainAndToken(raw: string): (pieces: seq<string>)
    ensures 1 <= |pieces| <= 2
    ensures pieces[0] == raw[..IndexOf(raw, ':')]
    ensures |pieces| == 2 <==> IndexOf(raw, ':') < |raw|
    ensures |pieces| == 2 ==>
      var rest := raw[IndexOf(raw, ':') + 1..]; pieces[1] == rest[..IndexOf(rest, ':')]
  {
    var all := Split(raw, ':');
    if |all| >= 2 then all[..2] else all
  }

  /** `parseChainAndToken`: the text before the first `:` and the text between
      the first and the second `:`, both non-empty. A missing (`undefined`,
      `null`) or empty argument is one error; an empty part is another. */
  function ParseChainAndToken(raw: Option<string>): (r: Result<(string, string), string>)
    ensures raw.None? || raw.value == "" ==> r == Err(MissingChainAndToken)
    ensures r.Ok? <==>
      (raw.Some? && var i := IndexOf(raw.value, ':');
       0 < i && i + 1 < |raw.value| && raw.value[i + 1] != ':')
    ensures r.Ok? ==>
      var i := IndexOf(raw.value, ':'); var rest := raw.value[i + 1..];
      r.value == (raw.value[..i], rest[..IndexOf(rest, ':')])
    ensures r.Err? && raw.Some? && raw.value != "" ==> r.error == "Invalid chain and token format: " + raw.value
  {
    if raw.None? || raw.value == "" then Err(MissingChainAndToken)
    else
      var pieces := SplitChainAndToken(raw.value);
      if pieces[0] == "" || |pieces| < 2 || pieces[1] == "" then Err("Invalid chain and token format: " + raw.value)
      else Ok((pieces[0], pieces[1]))
  }

  lemma FirstColons()
    ensures IndexOf("eth:usdc:extra", ':') == 3 && IndexOf("eth", ':') == 3
  {
    var s := "eth:usdc:extra";
    assert s[3] == ':' && s[0] != ':' && s[1] != ':' && s[2] != ':';
    assert "eth"[0] != ':' && "eth"[1] != ':' && "eth"[2] != ':';
  }

  lemma SecondColons()
    ensures IndexOf("usdc:extra", ':') == 4 && IndexOf("eth:", ':') == 3
  {
    var rest := "usdc:extra";
    assert rest[4] == ':' && rest[0] != ':' && rest[1] != ':' && rest[2] != ':' && rest[3] != ':';
    assert "eth:"[3] == ':' && "eth:"[0] != ':' && "eth:"[1] != ':' && "eth:"[2] != ':';
  }

  /** Anything after a second `:` is dropped; a missing `:` or an empty part
      is rejected. */
  lemma ParseChainAndTokenExamples()
    ensures ParseChainAndToken(Some("eth:usdc:extra")) == Ok(("eth", "usdc"))
    ensures ParseChainAndToken(Some("eth")).Err? && ParseChainAndToken(Some(":usdc")).Err?
    ensures ParseChainAndToken(Some("eth:")).Err?
  {
    FirstColons();
    SecondColons();
    assert IndexOf(":usdc", ':') == 0;
    var s := "eth:usdc:extra";
    assert s[4..] == "usdc:extra";
    assert s[..3] == "eth";
    assert "usdc:extra"[..4] == "usdc";
  }

  datatype Handler = Help | Exit | TopUp | Balance | Swap

  datatype Command = Command(aliases: seq<string>, handler: Handler, description: string)

  const Commands: seq<Command> := [
    Command(["h", "help"], Help, "Help"),
    Command(["q", "exit"], Exit, "Exiting the program"),
    Command(["t", "topup"], TopUp, "Top up EVM account from donor"),
    Command(["b", "balance"], Balance, "Get token balance"),
    Command(["s", "swap"], Swap, "Swap tokens")
  ]

  /** `commands.find(...)`: the index of the first command listing `name`
      among its aliases, or `|commands|` when none does. */
  function FindCommand(commands: seq<Command>, name: string): (i: nat)
    ensures i <= |commands|
    ensures i < |commands| ==> name in commands[i].aliases
    ensures forall j :: 0 <= j < i ==> name !in commands[j].aliases
  {
    if commands == [] then 0
    else if name in commands[0].aliases then 0
    else 1 + FindCommand(commands[1..], name)
  }

  datatype Dispatch = Run(handler: Handler, inputCommand: string, args: seq<string>) | UnknownCommand

  /** `readCommand`: the trimmed input split on single spaces; its first
      piece selects the command and the rest are the arguments. */
  function ReadCommand(input: string): (r: Dispatch)
    ensures var pieces := Split(Trim(input), ' ');
      (r.UnknownCommand? <==> forall j :: 0 <= j < |Commands| ==> pieces[0] !in Commands[j].aliases)
      && (r.Run? ==>
            (r.inputCommand == pieces[0] && r.args == pieces[1..]
             && exists j :: 0 <= j < |Commands| && pieces[0] in Commands[j].aliases && r.handler == Commands[j].handler))
  {
    var pieces := Split(Trim(input), ' ');
    var i := FindCommand(Commands, pieces[0]);
    if i < |Commands| then Run(Commands[i].handler, pieces[0], pieces[1..]) else UnknownCommand
  }

  /** No alias belongs to two commands, so the first match is the only one. */
  lemma AliasesAreUnique()
    ensures forall i, j :: 0 <= i < j < |Commands| ==>
      forall a :: a in Commands[i].aliases ==> a !in Commands[j].aliases
  {
  }

  lemma NoSpaceSplits()
    ensures Split("HELP", ' ') == ["HELP"] && Split("x", ' ') == ["x"]
  {
    assert IndexOf("HELP", ' ') == 4 by {
      assert forall k :: 0 <= k < 4 ==> "HELP"[k] != ' ';
    }
    assert IndexOf("x", ' ') == 1;
  }

  lemma DoubleSpaceSplit()
    ensures Split("b  x", ' ') == ["b", "", "x"]
  {
    NoSpaceSplits();
    var s := "b  x";
    assert IndexOf(s, ' ') == 1 by { assert s[1] == ' ' && s[0] != ' '; }
    assert s[2..] == " x";
    assert IndexOf(" x", ' ') == 0;
    assert " x"[1..] == "x";
    assert Split(" x", ' ') == [""] + Split("x", ' ');
    assert s[..1] == "b";
    assert Split(s, ' ') == [s[..1]] + Split(s[2..], ' ');
  }

  lemma UpperCaseNameNotFound()
    ensures FindCommand(Commands, "HELP") == |Commands|
  {
  }

  lemma ShortAliasFound()
    ensures FindCommand(Commands, "b") == 3
  {
  }

  /** Lookup is exact and case-sensitive. */
  lemma ReadCommandIsCaseSensitive()
    ensures ReadCommand("HELP") == UnknownCommand
  {
    TrimNoop("HELP");
    NoSpaceSplits();
    UpperCaseNameNotFound();
  }

  /** Every single space separates an argument, so two spaces give an empty
      argument. */
  lemma ReadCommandKeepsEmptyArguments()
    ensures ReadCommand("b  x") == Run(Balance, "b", ["", "x"])
  {
    TrimNoop("b  x");
    DoubleSpaceSplit();
    ShortAliasFound();
  }

  /** How the `swap` command ends. */
  datatype SwapOutcome =
    | Usage(inputCommand: string)
    | InvalidInputAmount(raw: string)
    | InvalidOutputAmount(raw: string)
    | Failed(message: string)
    | SrcTokenNotFound(symbol: string)
    | DstTokenNotFound(symbol: string)
    | NothingDone
    | CreateEvmOrder(inputAmount: real, srcToken: string, outputAmount: real, dstToken: string)

  /** `swapCommandHandler`. `amountOf` stands for `Number` followed by
      `isNonNegativeNumber` (`None` when the amount is rejected);
      `evmHasToken` and `tezosHasToken` for the accounts' token lookups. */
  function SwapCommand(inputCommand: string, args: seq<string>, amountOf: string -> Option<real>,
    evmHasToken: string -> bool, tezosHasToken: string -> bool): (r: SwapOutcome)
    ensures |args| < 4 <==> r == Usage(inputCommand)
    ensures |args| >= 4 && amountOf(args[0]).None? ==> r == InvalidInputAmount(args[0])
    ensures r.CreateEvmOrder? ==>
      && |args| >= 4
      && ParseChainAndToken(Some(args[1])).Ok? && ParseChainAndToken(Some(args[3])).Ok?
      && IsEvmChain(ParseChainAndToken(Some(args[1])).value.0) == Ok(true)
      && r.srcToken == ParseChainAndToken(Some(args[1])).value.1 && evmHasToken(r.srcToken)
      && r.dstToken == ParseChainAndToken(Some(args[3])).value.1 && tezosHasToken(r.dstToken)
      && Some(r.inputAmount) == amountOf(args[0]) && Some(r.outputAmount) == amountOf(args[2])
  {
    if |args| < 4 then Usage(inputCommand)
    else if amountOf(args[0]).None? then InvalidInputAmount(args[0])
    else
      var src := ParseChainAndToken(Some(args[1]));
      if src.Err? then Failed(src.error)
      else if amountOf(args[2]).None? then InvalidOutputAmount(args[2])
      else
        var dst := ParseChainAndToken(Some(args[3]));
        if dst.Err? then Failed(dst.error)
        else
          var isEvm := IsEvmChain(src.value.0);
          if isEvm.Err? then Failed(isEvm.error)
          else if !isEvm.value then NothingDone
          else if !evmHasToken(src.value.1) then SrcTokenNotFound(src.value.1)
          else if !tezosHasToken(dst.value.1) then DstTokenNotFound(dst.value.1)
          else CreateEvmOrder(amountOf(args[0]).value, src.value.1, amountOf(args[2]).value, dst.value.1)
  }

  /** The destination chain name is split off but never checked: only its
      token symbol is used. */
  lemma DstChainNameIgnored(inputCommand: string, args: seq<string>, otherDst: string,
    amountOf: string -> Option<real>, evmHasToken: string -> bool, tezosHasToken: string -> bool)
    requires |args| >= 4
    requires ParseChainAndToken(Some(args[3])).Ok? && ParseChainAndToken(Some(otherDst)).Ok?
    requires ParseChainAndToken(Some(args[3])).value.1 == ParseChainAndToken(Some(otherDst)).value.1
    ensures SwapCommand(inputCommand, args, amountOf, evmHasToken, tezosHasToken)
      == SwapCommand(inputCommand, args[3 := otherDst], amountOf, evmHasToken, tezosHasToken)
  {
  }

  /** A Tezos source chain is accepted and then nothing happens. */
  lemma TezosSourceDoesNothing(inputCommand: string, args: seq<string>,
    amountOf: string -> Option<real>, evmHasToken: string -> bool, tezosHasToken: string -> bool)
    requires |args| >= 4 && amountOf(args[0]).Some? && amountOf(args[2]).Some?
    requires ParseChainAndToken(Some(args[1])).Ok? && ParseChainAndToken(Some(args[3])).Ok?
    requires IsEvmChain(ParseChainAndToken(Some(args[1])).value.0) == Ok(false)
    ensures SwapCommand(inputCommand, args, amountOf, evmHasToken, tezosHasToken) == NothingDone
  {
  }

  /** Arguments past the fourth never change the outcome. */
  lemma ExcessArgumentsIgnored(inputCommand: string, args: seq<string>, extra: seq<string>,
    amountOf: string -> Option<real>, evmHasToken: string -> bool, tezosHasToken: string -> bool)
    requires |args| == 4
    ensures SwapCommand(inputCommand, args + extra, amountOf, evmHasToken, tezosHasToken)
      == SwapCommand(inputCommand, args, amountOf, evmHasToken, tezosHasToken)
  {
    assert (args + extra)[..4] == args;
    assert (args + extra)[0] == args[0] && (args + extra)[1] == args[1];
    assert (args + extra)[2] == args[2] && (args + extra)[3] == args[3];
  }
}

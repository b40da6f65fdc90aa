/** `BalanceProvider.getBalances`: the chain-specific lookup
    (`getBalancesInternal`) is an oracle whose answer is passed in; the loop
    files its answers into a record keyed by lower-cased token symbol. */
module BalanceProvider {
  import opened Wrappers
  import opened JsString

  /** Only the symbol of a token takes part in building the record. */
  datatype Token = Token(symbol: string, decimals: int)

  /** A balance is a formatted decimal text or a raw bigint. */
  datatype TokenBalance = FormattedBalance(text: string) | RawBalance(amount: int)

  function Key(token: Token): string
  {
    ToLower(token.symbol)
  }

  /** Writing a string or bigint to `record["__proto__"]` of a plain object
      runs the inherited prototype setter, which ignores a primitive value:
      no own property is created for that key. */
  const ProtoKey: string := "__proto__"

  /** The own keys the loop creates. */
  function Keys(tokens: seq<Token>): set<string>
  {
    set i | 0 <= i < |tokens| && Key(tokens[i]) != ProtoKey :: Key(tokens[i])
  }

  /** The last index whose token has this key, or -1. */
  function LastIndexOfKey(tokens: seq<Token>, key: string): (j: int)
    ensures -1 <= j < |tokens|
    ensures j >= 0 ==> Key(tokens[j]) == key
    ensures forall m :: j < m < |tokens| ==> Key(tokens[m]) != key
  {
    if tokens == [] then -1
    else if Key(tokens[|tokens| - 1]) == key then |tokens| - 1
    else LastIndexOfKey(tokens[..|tokens| - 1], key)
  }

  /** `balances[j]`, which is `undefined` past the end of the oracle's answer. */
  function BalanceAt(balances: seq<TokenBalance>, j: int): Option<TokenBalance>
  {
    if 0 <= j < |balances| then Some(balances[j]) else None
  }

  method GetBalances(tokens: seq<Token>, balances: seq<TokenBalance>)
    returns (result: map<string, Option<TokenBalance>>)
    ensures result.Keys == Keys(tokens)
    ensures forall key :: key in result ==> result[key] == BalanceAt(balances, LastIndexOfKey(tokens, key))
  {
    result := map[];
    var i := 0;
    while i < |tokens|
      invariant 0 <= i <= |tokens|
      invariant result.Keys == Keys(tokens[..i])
      invariant forall key :: key in result ==> result[key] == BalanceAt(balances, LastIndexOfKey(tokens[..i], key))
    {
      var token := tokens[i];
      var tokenBalance := BalanceAt(balances, i);
      if Key(token) != ProtoKey {
        result := result[Key(token) := tokenBalance];
      }
      assert tokens[..i + 1][..i] == tokens[..i];
      KeysOfSnoc(tokens[..i + 1]);
      i := i + 1;
    }
    assert tokens[..i] == tokens;
  }

  /** A text is a key exactly when it is not `__proto__` and some token's
      lower-cased symbol equals it. */
  lemma KeysAreLowerCasedSymbols(tokens: seq<Token>, key: string)
    ensures key in Keys(tokens) <==> key != ProtoKey && LastIndexOfKey(tokens, key) >= 0
  {
    if key in Keys(tokens) {
      var i :| 0 <= i < |tokens| && Key(tokens[i]) == key && key != ProtoKey;
      assert LastIndexOfKey(tokens, key) >= i;
    }
    if key != ProtoKey && LastIndexOfKey(tokens, key) >= 0 {
      var j := LastIndexOfKey(tokens, key);
      assert Key(tokens[j]) == key;
    }
  }

  /** When the oracle answers one balance per token, no entry is undefined. */
  lemma OneBalancePerTokenFillsEveryEntry(tokens: seq<Token>, balances: seq<TokenBalance>, key: string)
    requires |balances| == |tokens| && key in Keys(tokens)
    ensures BalanceAt(balances, LastIndexOfKey(tokens, key)).Some?
  {
    KeysAreLowerCasedSymbols(tokens, key);
  }

  predicate DistinctKeys(tokens: seq<Token>)
  {
    forall i, j :: 0 <= i < j < |tokens| ==> Key(tokens[i]) != Key(tokens[j])
  }

  predicate NoProtoKey(tokens: seq<Token>)
  {
    forall i :: 0 <= i < |tokens| ==> Key(tokens[i]) != ProtoKey
  }

  /** One loop step adds the last token's key, unless it is `__proto__`. */
  lemma KeysOfSnoc(tokens: seq<Token>)
    requires tokens != []
    ensures var last := Key(tokens[|tokens| - 1]);
      Keys(tokens) == Keys(tokens[..|tokens| - 1]) + (if last != ProtoKey then {last} else {})
  {
    var prefix := tokens[..|tokens| - 1];
    assert forall m :: 0 <= m < |prefix| ==> prefix[m] == tokens[m];
  }

  /** Distinct keys over `tokens` are distinct over its prefix and the last
      key differs from every earlier one, and conversely. */
  lemma DistinctKeysOfSnoc(tokens: seq<Token>)
    requires tokens != []
    ensures DistinctKeys(tokens) <==>
      (DistinctKeys(tokens[..|tokens| - 1])
       && forall m :: 0 <= m < |tokens| - 1 ==> Key(tokens[m]) != Key(tokens[|tokens| - 1]))
  {
    var prefix := tokens[..|tokens| - 1];
    assert forall m :: 0 <= m < |prefix| ==> prefix[m] == tokens[m];
  }

  /** A last key other than `__proto__` is new exactly when it is not
      already a key of the prefix. */
  lemma LastKeyNew(tokens: seq<Token>)
    requires tokens != [] && Key(tokens[|tokens| - 1]) != ProtoKey
    ensures var last := Key(tokens[|tokens| - 1]);
      (forall m :: 0 <= m < |tokens| - 1 ==> Key(tokens[m]) != last) <==> last !in Keys(tokens[..|tokens| - 1])
  {
    var prefix := tokens[..|tokens| - 1];
    assert forall m :: 0 <= m < |prefix| ==> prefix[m] == tokens[m];
  }

  lemma NoProtoKeyOfSnoc(tokens: seq<Token>)
    requires tokens != []
    ensures NoProtoKey(tokens) <==> NoProtoKey(tokens[..|tokens| - 1]) && Key(tokens[|tokens| - 1]) != ProtoKey
  {
    var prefix := tokens[..|tokens| - 1];
    assert forall m :: 0 <= m < |prefix| ==> prefix[m] == tokens[m];
  }

  /** At most one key per token, and exactly one per token when the
      lower-cased symbols are distinct and none is `__proto__`. */
  lemma {:induction false} KeyCount(tokens: seq<Token>)
    ensures |Keys(tokens)| <= |tokens|
    ensures |Keys(tokens)| == |tokens| <==> DistinctKeys(tokens) && NoProtoKey(tokens)
  {
    if tokens != [] {
      var prefix := tokens[..|tokens| - 1];
      var last := Key(tokens[|tokens| - 1]);
      KeyCount(prefix);
      KeysOfSnoc(tokens);
      DistinctKeysOfSnoc(tokens);
      NoProtoKeyOfSnoc(tokens);
      if last != ProtoKey {
        LastKeyNew(tokens);
        if last !in Keys(prefix) {
          assert |Keys(tokens)| == |Keys(prefix)| + 1;
        }
      }
    }
  }

  /** A token whose symbol lower-cases to `__proto__` leaves no entry; the
      other tokens are filed as usual. */
  lemma ProtoSymbolLeavesNoEntry()
    ensures Keys([Token("__PROTO__", 6), Token("USDC", 6)]) == {"usdc"}
  {
    var tokens := [Token("__PROTO__", 6), Token("USDC", 6)];
    assert Key(tokens[0]) == ProtoKey;
    assert Key(tokens[1]) == "usdc";
  }
}

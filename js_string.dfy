/** The few JavaScript string built-ins the core relies on:
    `String.prototype.trim`, `toLowerCase` (ASCII part), `split` on one
    character and `replace` of the first occurrence of a two-character
    pattern. */
module JsString {

  /** WhiteSpace and LineTerminator code points of ECMAScript (the set that
      `trim` and `BigInt(string)` strip). */
  predicate IsWhiteSpace(c: char)
  {
    var n := c as int;
    n == 0x09 || n == 0x0A || n == 0x0B || n == 0x0C || n == 0x0D || n == 0x20
    || n == 0xA0 || n == 0x1680 || (0x2000 <= n <= 0x200A) || n == 0x2028
    || n == 0x2029 || n == 0x202F || n == 0x205F || n == 0x3000 || n == 0xFEFF
  }

  function TrimStart(s: string): (r: string)
    ensures |r| <= |s| && r == s[|s| - |r|..]
    ensures r == [] || !IsWhiteSpace(r[0])
  {
    if s != [] && IsWhiteSpace(s[0]) then TrimStart(s[1..]) else s
  }

  function TrimEnd(s: string): (r: string)
    ensures |r| <= |s| && r == s[..|r|]
    ensures r == [] || !IsWhiteSpace(r[|r| - 1])
  {
    if s != [] && IsWhiteSpace(s[|s| - 1]) then TrimEnd(s[..|s| - 1]) else s
  }

  /** `s.trim()` */
  function Trim(s: string): string
  {
    TrimEnd(TrimStart(s))
  }

  lemma TrimNoop(s: string)
    requires s == [] || (!IsWhiteSpace(s[0]) && !IsWhiteSpace(s[|s| - 1]))
    ensures Trim(s) == s
  {
  }

  /** `toLowerCase` on one character; only the ASCII letters are mapped. */
  function LowerChar(c: char): (r: char)
    ensures 'A' <= c <= 'Z' ==> r as int == c as int + 32
    ensures !('A' <= c <= 'Z') ==> r == c
  {
    if 'A' <= c <= 'Z' then (c as int + 32) as char else c
  }

  function ToLower(s: string): (r: string)
    ensures |r| == |s|
    ensures forall k :: 0 <= k < |s| ==> r[k] == LowerChar(s[k])
  {
    if s == [] then [] else [LowerChar(s[0])] + ToLower(s[1..])
  }

  /** Index of the first occurrence of `c` in `s`, or `|s|` when there is none. */
  function IndexOf(s: string, c: char): (i: nat)
    ensures i <= |s|
    ensures i < |s| ==> s[i] == c
    ensures forall k :: 0 <= k < i ==> s[k] != c
  {
    if s == [] then 0 else if s[0] == c then 0 else 1 + IndexOf(s[1..], c)
  }

  /** `s.split(c)`: the pieces between occurrences of `c`, always at least one. */
  function Split(s: string, c: char): (pieces: seq<string>)
    ensures |pieces| >= 1
    ensures pieces[0] == s[..IndexOf(s, c)]
    ensures IndexOf(s, c) == |s| ==> pieces == [s]
    ensures IndexOf(s, c) < |s| ==> pieces == [s[..IndexOf(s, c)]] + Split(s[IndexOf(s, c) + 1..], c)
    decreases |s|
  {
    var i := IndexOf(s, c);
    if i == |s| then [s] else [s[..i]] + Split(s[i + 1..], c)
  }

  /** True when `p` occurs in `s` at index `i`. */
  predicate OccursAt(s: string, p: string, i: nat)
  {
    i + |p| <= |s| && s[i..i + |p|] == p
  }

  /** Index of the first occurrence of the two-character pattern `p` in `s`,
      or `|s|` when there is none. */
  function FirstOccurrence(s: string, p: string): (i: nat)
    requires |p| == 2
    ensures i <= |s|
    ensures i < |s| ==> OccursAt(s, p, i)
    ensures i == |s| ==> forall k :: 0 <= k <= |s| ==> !OccursAt(s, p, k)
    ensures forall k :: 0 <= k < i ==> !OccursAt(s, p, k)
  {
    if |s| < 2 then |s|
    else if s[..2] == p then 0
    else
      assert forall k :: 1 <= k <= |s| ==> (OccursAt(s, p, k) <==> OccursAt(s[1..], p, k - 1));
      1 + FirstOccurrence(s[1..], p)
  }

  /** `s.replace(p, "")` for a two-character pattern: removes the first
      occurrence of `p` and nothing else. */
  function RemoveFirst(s: string, p: string): (r: string)
    requires |p| == 2
    ensures FirstOccurrence(s, p) == |s| ==> r == s
    ensures FirstOccurrence(s, p) < |s| ==>
      var i := FirstOccurrence(s, p); |r| == |s| - 2 && s == r[..i] + p + r[i..]
  {
    var i := FirstOccurrence(s, p);
    if i < |s| then
      var r := s[..i] + s[i + 2..];
      assert r[..i] == s[..i] && r[i..] == s[i + 2..];
      assert s == s[..i] + s[i..i + 2] + s[i + 2..];
      r
    else s
  }
}

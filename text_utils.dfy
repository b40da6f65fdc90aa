/** `trimSlashes` of the common text utilities. */
module TextUtils {

  predicate StartsWithSlash(s: string) { |s| >= 1 && s[0] == '/' }
  predicate EndsWithSlash(s: string) { |s| >= 1 && s[|s| - 1] == '/' }

  /** Removes one leading and one trailing `/`, where present. The input is
      the result framed by exactly the slashes that were removed; a lone "/"
      is both first and last, and is removed once. */
  function TrimSlashes(value: string): (r: string)
    ensures value == (if StartsWithSlash(value) then "/" else "") + r
      + (if EndsWithSlash(value) && |value| >= 2 then "/" else "")
    ensures !StartsWithSlash(value) && !EndsWithSlash(value) ==> r == value
    ensures |value| - 2 <= |r| <= |value|
  {
    var hasFirst := StartsWithSlash(value);
    var hasLast := EndsWithSlash(value);
    if hasFirst && hasLast then (if |value| >= 2 then value[1..|value| - 1] else "")
    else if hasFirst then value[1..]
    else if hasLast then value[..|value| - 1]
    else value
  }

  lemma LoneSlashBecomesEmpty()
    ensures TrimSlashes("/") == ""
  {
  }

  /** Only one slash goes from each end, so a second application can still
      change the text. */
  lemma TrimSlashesNotIdempotent()
    ensures TrimSlashes("//a") == "/a"
    ensures TrimSlashes(TrimSlashes("//a")) == "a"
  {
    assert TrimSlashes("//a") == "/a";
    assert TrimSlashes("/a") == "a";
  }
}

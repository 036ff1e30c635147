/**
 * The few functions of Go's `strings` package that the plugin relies on,
 * over `string` = `seq<char>`.
 */
module Strings {

  /** `strings.HasPrefix(s, prefix)`. */
  predicate HasPrefix(s: string, prefix: string)
  {
    |prefix| <= |s| && s[..|prefix|] == prefix
  }

  /** `strings.HasPrefix(s, "-")`: the token looks like a flag. */
  predicate StartsWithDash(s: string)
  {
    HasPrefix(s, "-")
  }

  /**
   * `strings.SplitN(s, string(c), 2)` when `c` occurs in `s`: the text before
   * the first `c` and the text after it. It is recursive and its promise is the
   * lemma SplitAtFirstRejoins, so that the many uses of a key and a value in
   * the argument processor unfold it only as far as a proof needs.
   */
  function SplitAtFirst(s: string, c: char): (string, string)
    requires c in s
    decreases |s|
  {
    if s[0] == c then ([], s[1..])
    else
      var r := SplitAtFirst(s[1..], c);
      ([s[0]] + r.0, r.1)
  }

  /** The two parts joined around `c` give `s` back, and the first part holds no `c`. */
  lemma {:induction false} SplitAtFirstRejoins(s: string, c: char)
    requires c in s
    ensures SplitAtFirst(s, c).0 + [c] + SplitAtFirst(s, c).1 == s
    ensures c !in SplitAtFirst(s, c).0
    decreases |s|
  {
    if s[0] != c {
      var r := SplitAtFirst(s[1..], c);
      SplitAtFirstRejoins(s[1..], c);
      assert s == [s[0]] + s[1..];
      assert [s[0]] + r.0 + [c] + r.1 == [s[0]] + (r.0 + [c] + r.1);
    }
  }

  /** Lower-cases the ASCII letters of `s` and leaves every other character alone. */
  function ToLowerAscii(s: string): string
  {
    seq(|s|, i requires 0 <= i < |s| => if 'A' <= s[i] <= 'Z' then (s[i] as int + 32) as char else s[i])
  }

  /**
   * `strings.ToLower(scheme) == "https"`. Only ASCII letters lower-case to the
   * letters of "https", so ASCII lower-casing decides this comparison exactly.
   */
  predicate IsHttpsScheme(scheme: string)
  {
    ToLowerAscii(scheme) == "https"
  }
}

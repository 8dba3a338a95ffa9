/** The string operations the filters and the header use, on `seq<char>`. */
module Text {

  /** `toLowerCase` on one character, restricted to ASCII `A`..`Z`. */
  function LowerChar(c: char): (r: char) {
    if 'A' <= c <= 'Z' then (c as int + 32) as char else c
  }

  /** `toLowerCase` on a string, character by character (ASCII only). */
  function Lower(s: string): (r: string) {
    seq(|s|, i requires 0 <= i < |s| => LowerChar(s[i]))
  }

  /** Lower-casing keeps the length, so a string is empty iff its lower-cased form is. */
  lemma LowerKeepsLength(s: string)
    ensures |Lower(s)| == |s|
  {
  }

  /** `needle` occurs in `hay` starting at index `i`. */
  ghost predicate OccursAt(hay: string, needle: string, i: int) {
    0 <= i && i + |needle| <= |hay| && hay[i..i + |needle|] == needle
  }

  /** Searches for `needle` from index `k` on, knowing that it does not start before `k`. */
  function IncludesFrom(hay: string, needle: string, k: nat): (r: bool)
    requires forall i :: 0 <= i < k ==> !OccursAt(hay, needle, i)
    ensures r <==> exists i :: OccursAt(hay, needle, i)
    decreases |hay| - k
  {
    if k + |needle| > |hay| then false
    else if hay[k..k + |needle|] == needle then assert OccursAt(hay, needle, k); true
    else IncludesFrom(hay, needle, k + 1)
  }

  /** `hay.includes(needle)`: `needle` is a substring of `hay`. */
  function Includes(hay: string, needle: string): (r: bool)
    ensures r <==> exists i :: OccursAt(hay, needle, i)
  {
    IncludesFrom(hay, needle, 0)
  }

  /** `s.startsWith(prefix)`. */
  predicate StartsWith(s: string, prefix: string) {
    prefix <= s
  }
}

/** Substring search on strings, shared by the Python and JavaScript parts. */
module Text {
  /** The `n` characters of `s` starting at `i`. */
  function Window(s: string, i: nat, n: nat): string
    requires i + n <= |s|
  {
    s[i..i + n]
  }

  /** Python's `needle in s` and JavaScript's `s.includes(needle)`. */
  predicate Contains(s: string, needle: string)
  {
    exists i: nat :: i + |needle| <= |s| && Window(s, i, |needle|) == needle
  }
}

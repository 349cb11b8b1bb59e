/**
 * Decimal text of integers, as Python's `str()`, `int()` and the `:02d`
 * format specification and JavaScript's template literals produce and read it.
 */
module Decimal {
  import opened Wrappers

  predicate IsDigit(c: char)
  {
    '0' <= c <= '9'
  }

  /** Every character of `s` is a decimal digit (the empty string qualifies). */
  predicate AllDigits(s: string)
  {
    forall i :: 0 <= i < |s| ==> IsDigit(s[i])
  }

  /** A non-empty run of decimal digits. */
  predicate IsDigits(s: string)
  {
    |s| > 0 && AllDigits(s)
  }

  function DigitChar(d: nat): (c: char)
    requires d < 10
    ensures IsDigit(c)
    ensures (c as int) - ('0' as int) == d
  {
    (('0' as int) + d) as char
  }

  function DigitValue(c: char): (d: nat)
    requires IsDigit(c)
    ensures d < 10
    ensures DigitChar(d) == c
  {
    (c as int) - ('0' as int)
  }

  /** The digits of `n` without leading zeros. */
  function Show(n: nat): (s: string)
    ensures IsDigits(s)
    ensures |s| == 1 <==> n < 10
    ensures s[0] == '0' ==> n == 0
  {
    if n < 10 then [DigitChar(n)] else Show(n / 10) + [DigitChar(n % 10)]
  }

  /** The number a run of digits denotes (leading zeros allowed). */
  function Value(s: string): nat
    requires AllDigits(s)
  {
    if |s| == 0 then 0 else Value(s[..|s| - 1]) * 10 + DigitValue(s[|s| - 1])
  }

  lemma {:induction false} ValueShow(n: nat)
    ensures Value(Show(n)) == n
  {
    if n >= 10 {
      var s := Show(n / 10) + [DigitChar(n % 10)];
      assert s[..|s| - 1] == Show(n / 10);
      ValueShow(n / 10);
    }
  }

  /** A leading zero does not change the value of a run of digits. */
  lemma {:induction false} ValueLeadingZero(s: string)
    requires AllDigits(s)
    ensures AllDigits("0" + s)
    ensures Value("0" + s) == Value(s)
  {
    if |s| > 0 {
      var z := "0" + s;
      assert z[..|z| - 1] == "0" + s[..|s| - 1];
      ValueLeadingZero(s[..|s| - 1]);
    }
  }

  /** Python's `f"{i:02d}"`: at least two characters, zero-padded after any sign. */
  function Int02(i: int): (s: string)
    ensures |s| >= 2
    ensures ':' !in s
  {
    if i < 0 then "-" + Show(-i)
    else if i < 10 then "0" + Show(i)
    else Show(i)
  }

  /** Reads an optionally negative run of digits: the inverse of `Int02` and of `Show`. */
  function ReadInt(s: string): Option<int>
  {
    if |s| > 0 && s[0] == '-' then
      if IsDigits(s[1..]) then Some(-(Value(s[1..]) as int)) else None
    else if IsDigits(s) then Some(Value(s))
    else None
  }

  lemma ReadInt02(i: int)
    ensures ReadInt(Int02(i)) == Some(i)
  {
    if i < 0 {
      assert ("-" + Show(-i))[1..] == Show(-i);
      ValueShow(-i);
    } else if i < 10 {
      ValueLeadingZero(Show(i));
      ValueShow(i);
    } else {
      ValueShow(i);
    }
  }

  /** The whitespace Python's `int()` strips from both ends of its argument (ASCII part). */
  predicate IsPySpace(c: char)
  {
    c == ' ' || c == '\t' || c == '\n' || c == '\r' || c == '\U{B}' || c == '\U{C}'
  }

  function TrimStart(s: string): (t: string)
    ensures |t| <= |s|
  {
    if |s| > 0 && IsPySpace(s[0]) then TrimStart(s[1..]) else s
  }

  function TrimEnd(s: string): (t: string)
    ensures |t| <= |s|
  {
    if |s| > 0 && IsPySpace(s[|s| - 1]) then TrimEnd(s[..|s| - 1]) else s
  }

  /**
   * Python's `int(s)` on a string: surrounding whitespace, an optional `+` or
   * `-`, then decimal digits; anything else raises ValueError (`None` here).
   */
  function PyInt(s: string): Option<int>
  {
    Signed(TrimEnd(TrimStart(s)))
  }

  /** An optionally signed run of digits, with nothing around it. */
  function Signed(t: string): Option<int>
  {
    if |t| > 0 && t[0] == '-' then
      if IsDigits(t[1..]) then Some(-(Value(t[1..]) as int)) else None
    else if |t| > 0 && t[0] == '+' then
      if IsDigits(t[1..]) then Some(Value(t[1..])) else None
    else if IsDigits(t) then Some(Value(t))
    else None
  }

  /** `int(str(i)) == i`, also with blanks around the digits. */
  lemma PyIntShow(i: int, pre: nat, post: nat)
    ensures PyInt(Spaces(pre) + IntText(i) + Spaces(post)) == Some(i)
  {
    var body := IntText(i);
    TrimStartSpaces(pre, body + Spaces(post));
    assert Spaces(pre) + body + Spaces(post) == Spaces(pre) + (body + Spaces(post));
    TrimEndSpaces(body, post);
    SignedIntText(i);
  }

  lemma SignedIntText(i: int)
    ensures Signed(IntText(i)) == Some(i)
  {
    if i < 0 {
      assert IntText(i)[1..] == Show(-i);
      ValueShow(-i);
    } else {
      ValueShow(i);
    }
  }

  /** Python's `str(i)` for an integer. */
  function IntText(i: int): (s: string)
    ensures |s| > 0 && !IsPySpace(s[0]) && !IsPySpace(s[|s| - 1])
  {
    if i < 0 then "-" + Show(-i) else Show(i)
  }

  function Spaces(n: nat): (s: string)
    ensures |s| == n
    ensures forall k :: 0 <= k < n ==> s[k] == ' '
  {
    if n == 0 then "" else " " + Spaces(n - 1)
  }

  lemma {:induction false} TrimStartSpaces(n: nat, x: string)
    requires |x| > 0 ==> !IsPySpace(x[0])
    ensures TrimStart(Spaces(n) + x) == x
  {
    if n > 0 {
      assert Spaces(n) + x == " " + (Spaces(n - 1) + x);
      TrimStartSpaces(n - 1, x);
    }
  }

  lemma {:induction false} TrimEndSpaces(x: string, n: nat)
    requires |x| > 0 ==> !IsPySpace(x[|x| - 1])
    ensures TrimEnd(x + Spaces(n)) == x
  {
    if n > 0 {
      var s := x + Spaces(n);
      assert s[..|s| - 1] == x + Spaces(n - 1);
      TrimEndSpaces(x, n - 1);
    } else {
      assert x + Spaces(n) == x;
    }
  }
}

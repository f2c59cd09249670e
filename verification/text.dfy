/**
 * The Python string built-ins the core relies on, over `string` (a sequence of
 * Unicode scalar values): `str.strip()`, `str.upper()`, `str.isdigit()`,
 * integer and fixed-point formatting, and slicing the last characters.
 */
module Text {
  import Numeric

  predicate IsDigit(c: char)
  {
    '0' <= c <= '9'
  }

  /** `any(ch.isdigit() for ch in s)`, for ASCII digits. */
  predicate HasDigit(s: string)
  {
    exists i :: 0 <= i < |s| && IsDigit(s[i])
  }

  /** The characters for which Python's `str.isspace()` holds. */
  predicate IsSpace(c: char)
  {
    || c == ' ' || c == '\t' || c == '\n' || c == '\r'
    || c == '\U{000B}' || c == '\U{000C}'
    || ('\U{001C}' <= c <= '\U{001F}')
    || c == '\U{0085}' || c == '\U{00A0}' || c == '\U{1680}'
    || ('\U{2000}' <= c <= '\U{200A}')
    || c == '\U{2028}' || c == '\U{2029}' || c == '\U{202F}'
    || c == '\U{205F}' || c == '\U{3000}'
  }

  /** `s.lstrip()`: the suffix of `s` left after dropping leading whitespace. */
  function StripLeft(s: string): (r: string)
    ensures |r| <= |s| && r == s[|s| - |r|..]
    ensures forall i :: 0 <= i < |s| - |r| ==> IsSpace(s[i])
    ensures |r| > 0 ==> !IsSpace(r[0])
  {
    if |s| > 0 && IsSpace(s[0]) then StripLeft(s[1..]) else s
  }

  /** `s.rstrip()`: the prefix of `s` left after dropping trailing whitespace. */
  function StripRight(s: string): (r: string)
    ensures |r| <= |s| && r == s[..|r|]
    ensures forall i :: |r| <= i < |s| ==> IsSpace(s[i])
    ensures |r| > 0 ==> !IsSpace(r[|r| - 1])
  {
    if |s| > 0 && IsSpace(s[|s| - 1]) then StripRight(s[..|s| - 1]) else s
  }

  /** `s[a..b]` is what stripping `s` keeps: everything outside it is
      whitespace and, when it is not empty, its end characters are not. */
  ghost predicate StripBounds(s: string, a: int, b: int)
  {
    && 0 <= a <= b <= |s|
    && (forall i :: (0 <= i < a || b <= i < |s|) ==> IsSpace(s[i]))
    && (a < b ==> !IsSpace(s[a]) && !IsSpace(s[b - 1]))
  }

  /** `r` is `s` with its leading and trailing whitespace removed. */
  ghost predicate IsStripOf(r: string, s: string)
  {
    exists a, b :: 0 <= a <= b <= |s| && StripBounds(s, a, b) && r == s[a..b]
  }

  /** `s.strip()`. */
  function Strip(s: string): (r: string)
    ensures IsStripOf(r, s)
  {
    StripKeepsMiddle(s);
    StripRight(StripLeft(s))
  }

  /** Stripping the left, then the right, keeps exactly the middle `s[a..b]`
      that `StripBounds` describes. */
  lemma StripKeepsMiddle(s: string)
    ensures IsStripOf(StripRight(StripLeft(s)), s)
  {
    MiddleBounds(s, StripLeft(s), StripRight(StripLeft(s)));
  }

  /** The middle left by a left strip `l` of `s` followed by a right strip `r`
      of `l`. */
  lemma MiddleBounds(s: string, l: string, r: string)
    requires |l| <= |s| && l == s[|s| - |l|..]
    requires forall i :: 0 <= i < |s| - |l| ==> IsSpace(s[i])
    requires |l| > 0 ==> !IsSpace(l[0])
    requires |r| <= |l| && r == l[..|r|]
    requires forall i :: |r| <= i < |l| ==> IsSpace(l[i])
    requires |r| > 0 ==> !IsSpace(r[|r| - 1])
    ensures StripBounds(s, |s| - |l|, |s| - |l| + |r|)
    ensures r == s[|s| - |l|..|s| - |l| + |r|]
    ensures IsStripOf(r, s)
  {
    var a := |s| - |l|;
    var b := a + |r|;
    forall i | b <= i < |s|
      ensures IsSpace(s[i])
    {
      assert s[i] == l[i - a];
    }
    if a < b {
      assert s[a] == r[0] && s[b - 1] == r[|r| - 1];
    }
    assert StripBounds(s, a, b) && r == s[a..b];
  }

  /** Stripping has exactly one outcome: any string that meets the description
      of `s.strip()` is `Strip(s)`. */
  lemma {:induction false} StripUnique(s: string, r: string)
    requires IsStripOf(r, s)
    ensures r == Strip(s)
  {
    var a1, b1 :| 0 <= a1 <= b1 <= |s| && StripBounds(s, a1, b1) && r == s[a1..b1];
    var a2, b2 :| 0 <= a2 <= b2 <= |s| && StripBounds(s, a2, b2) && Strip(s) == s[a2..b2];
    if a1 < b1 && a2 < b2 {
      assert !IsSpace(s[a1]) && !IsSpace(s[b1 - 1]);
      assert !IsSpace(s[a2]) && !IsSpace(s[b2 - 1]);
      assert a1 == a2 && b1 == b2;
    } else if a1 < b1 {
      assert false;
    } else if a2 < b2 {
      assert false;
    }
  }

  /** Stripping twice is stripping once. */
  lemma StripIdempotent(s: string)
    ensures Strip(Strip(s)) == Strip(s)
  {
    var r := Strip(s);
    var a, b :| 0 <= a <= b <= |s| && StripBounds(s, a, b) && r == s[a..b];
    assert |r| > 0 ==> !IsSpace(r[0]) && !IsSpace(r[|r| - 1]);
    StrippedIsFixed(r);
  }

  /** A string without leading or trailing whitespace is its own strip. */
  lemma StrippedIsFixed(r: string)
    requires |r| > 0 ==> !IsSpace(r[0]) && !IsSpace(r[|r| - 1])
    ensures Strip(r) == r
  {
    assert StripBounds(r, 0, |r|);
    assert r == r[0..|r|];
    StripUnique(r, r);
  }

  function UpperChar(c: char): char
  {
    if 'a' <= c <= 'z' then (c as int - 32) as char else c
  }

  /** `s.upper()` for ASCII letters; every other character is kept. */
  function Upper(s: string): (r: string)
    ensures |r| == |s|
    ensures forall i :: 0 <= i < |s| ==> r[i] == UpperChar(s[i])
  {
    if |s| == 0 then [] else [UpperChar(s[0])] + Upper(s[1..])
  }

  function DigitChar(d: nat): char
    requires d < 10
  {
    ('0' as int + d) as char
  }

  /** The decimal digits of `n`, most significant first, without leading zeros. */
  function NatStr(n: nat): (r: string)
    ensures |r| > 0
    ensures forall i :: 0 <= i < |r| ==> IsDigit(r[i])
  {
    if n < 10 then [DigitChar(n)] else NatStr(n / 10) + [DigitChar(n % 10)]
  }

  /** `str(n)` for a Python `int`. */
  function IntStr(n: int): string
  {
    if n < 0 then "-" + NatStr(-n) else NatStr(n)
  }

  /** `n` written with exactly `width` digits, padded with leading zeros. */
  function ZeroPad(n: nat, width: nat): (r: string)
    ensures |r| >= width
  {
    var digits := NatStr(n);
    if |digits| >= width then digits else seq(width - |digits|, _ => '0') + digits
  }

  /** `f"{x:.2f}"`: fixed-point rendering with two decimals. */
  function Fixed2(x: real): string
  {
    var k := Numeric.RoundHalfEven(Numeric.AbsReal(x) * 100.0);
    var cents: nat := k;
    var sign := if x < 0.0 then "-" else "";
    sign + NatStr(cents / 100) + "." + ZeroPad(cents % 100, 2)
  }

  /** `s[-n:]`: the last `n` characters, or all of `s` when it is shorter. */
  function LastChars(s: string, n: nat): (r: string)
    ensures |r| == if |s| < n then |s| else n
  {
    if |s| <= n then s else s[|s| - n..]
  }
}

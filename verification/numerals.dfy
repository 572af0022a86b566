/**
 * Python's conversions between `int` and `str` in base 10, as used for the
 * JWT subject claim: `str(user_id)` when the token is built and `int(sub)`
 * when it is read back.
 */
module Numerals {
  import opened Wrappers
  import opened Text

  function DigitChar(d: nat): (c: char)
    requires d < 10
    ensures IsDigit(c) && c as int - '0' as int == d
  {
    ('0' as int + d) as char
  }

  function DigitValue(c: char): (d: nat)
    requires IsDigit(c)
    ensures d < 10 && DigitChar(d) == c
  {
    c as int - '0' as int
  }

  /** The shortest decimal numeral of `n` (no leading zeros, "0" for zero). */
  function Decimal(n: nat): (s: string)
    ensures |s| > 0 && forall i :: 0 <= i < |s| ==> IsDigit(s[i])
    ensures s[0] == '0' ==> n == 0
  {
    if n < 10 then [DigitChar(n)] else Decimal(n / 10) + [DigitChar(n % 10)]
  }

  /** `str(i)` for a Python `int`. */
  function PyStr(i: int): (s: string)
    ensures |s| > 0 && IsDigit(s[|s| - 1])
    ensures s[0] == '-' <==> i < 0
    ensures forall k :: (if i < 0 then 1 else 0) <= k < |s| ==> IsDigit(s[k])
  {
    if i < 0 then "-" + Decimal(-i) else Decimal(i)
  }

  /** The value of a non-empty run of decimal digits, most significant first. */
  function DigitsValue(s: string): nat
    requires forall i :: 0 <= i < |s| ==> IsDigit(s[i])
  {
    if s == [] then 0 else 10 * DigitsValue(s[..|s| - 1]) + DigitValue(s[|s| - 1])
  }

  /** The characters `str.strip()` and `int()` treat as white space. */
  const PySpaces: seq<char> :=
    ['\t', '\n', '\U{000B}', '\U{000C}', '\r', '\U{001C}', '\U{001D}', '\U{001E}', '\U{001F}',
     ' ', '\U{0085}', '\U{00A0}', '\U{1680}', '\U{2000}', '\U{2001}', '\U{2002}', '\U{2003}',
     '\U{2004}', '\U{2005}', '\U{2006}', '\U{2007}', '\U{2008}', '\U{2009}', '\U{200A}',
     '\U{2028}', '\U{2029}', '\U{202F}', '\U{205F}', '\U{3000}']

  predicate IsPySpace(c: char) { c in PySpaces }

  function PyStrip(s: string): string
    decreases |s|
  {
    if s == [] then s
    else if IsPySpace(s[0]) then PyStrip(s[1..])
    else if IsPySpace(s[|s| - 1]) then PyStrip(s[..|s| - 1])
    else s
  }

  /**
   * The literal part that base-10 `int()` accepts after the sign: ASCII digits,
   * where an underscore may stand only between two digits.
   */
  predicate IsUnderscoredDigits(b: string) {
    |b| > 0 && forall i :: 0 <= i < |b| ==> DigitOrInnerUnderscore(b, i)
  }

  predicate DigitOrInnerUnderscore(b: string, i: nat)
    requires i < |b|
  {
    IsDigit(b[i]) || (b[i] == '_' && 0 < i < |b| - 1 && IsDigit(b[i - 1]) && IsDigit(b[i + 1]))
  }

  function DropUnderscores(b: string): (d: string)
    requires forall i :: 0 <= i < |b| ==> IsDigit(b[i]) || b[i] == '_'
    ensures forall i :: 0 <= i < |d| ==> IsDigit(d[i])
    ensures (forall i :: 0 <= i < |b| ==> IsDigit(b[i])) ==> d == b
  {
    if b == [] then []
    else (if b[0] == '_' then [] else [b[0]]) + DropUnderscores(b[1..])
  }

  /**
   * `int(s)`: `None` stands for the `ValueError` Python raises. Surrounding
   * white space is ignored and one `+` or `-` may lead.
   */
  function PyInt(s: string): Option<int>
  {
    var t := PyStrip(s);
    var neg := |t| > 0 && t[0] == '-';
    var body := if |t| > 0 && (t[0] == '-' || t[0] == '+') then t[1..] else t;
    if IsUnderscoredDigits(body) then
      assert forall i :: 0 <= i < |body| ==> IsDigit(body[i]) || body[i] == '_' by {
        forall i | 0 <= i < |body| ensures IsDigit(body[i]) || body[i] == '_' {
          assert DigitOrInnerUnderscore(body, i);
        }
      }
      var v: int := DigitsValue(DropUnderscores(body));
      Some(if neg then -v else v)
    else
      None
  }

  lemma NumeralEndsAreNotSpace(c: char)
    requires IsDigit(c) || c == '-'
    ensures !IsPySpace(c)
  {
  }

  /** Converting back what `str` produced yields the same integer. */
  lemma {:induction false} DecimalValue(n: nat)
    ensures DigitsValue(Decimal(n)) == n
  {
    if n >= 10 {
      var s := Decimal(n);
      assert s[..|s| - 1] == Decimal(n / 10);
      DecimalValue(n / 10);
    }
  }

  /** `int(str(i)) == i`: the subject a token was built with is read back unchanged. */
  lemma PyIntOfPyStr(i: int)
    ensures PyInt(PyStr(i)) == Some(i)
  {
    var s := PyStr(i);
    NumeralEndsAreNotSpace(s[0]);
    NumeralEndsAreNotSpace(s[|s| - 1]);
    assert PyStrip(s) == s;
    var body := if i < 0 then s[1..] else s;
    assert body == Decimal(if i < 0 then -i else i);
    DecimalValue(if i < 0 then -i else i);
  }
}

/** String helpers with the meaning they have in the source languages:
    JavaScript's `startsWith` and `toUpperCase` on one character, Python's
    `split('\n', 1)[0]` and `[:n]`, and reading a number written in decimal. */
module Text {
  import opened Wrappers

  /** `s.startsWith(prefix)` in JavaScript. */
  predicate StartsWith(s: string, prefix: string) {
    prefix <= s
  }

  /** Upper-casing one character; only the ASCII letters are mapped. */
  function UpperChar(c: char): char {
    if 'a' <= c <= 'z' then (c as int - 32) as char else c
  }

  /** `s.split(sep, 1)[0]` in Python: the text before the first `sep`, or all of
      `s` when it contains none. */
  function TakeUntil(s: string, sep: char): (r: string)
    ensures r <= s
    ensures sep !in r
    ensures |r| < |s| ==> s[|r|] == sep
  {
    if s == [] || s[0] == sep then []
    else [s[0]] + TakeUntil(s[1..], sep)
  }

  /** `TakeUntil` is the only prefix of `s` that stops right before the first `sep`. */
  lemma {:induction false} TakeUntilUnique(s: string, sep: char, t: string)
    requires t <= s && sep !in t
    requires |t| < |s| ==> s[|t|] == sep
    ensures t == TakeUntil(s, sep)
  {
    if s != [] && s[0] != sep {
      assert t != [] && t[0] == s[0];
      assert t[1..] <= s[1..];
      TakeUntilUnique(s[1..], sep, t[1..]);
    }
  }

  /** `s[:n]` in Python, for a non-negative `n`. */
  function Take(s: string, n: nat): (r: string)
    ensures r <= s
    ensures |r| == if |s| <= n then |s| else n
  {
    if |s| <= n then s else s[..n]
  }

  predicate IsDigit(c: char) {
    '0' <= c <= '9'
  }

  /** Text made of one or more decimal digits. */
  predicate IsDecimal(s: string) {
    s != [] && forall i | 0 <= i < |s| :: IsDigit(s[i])
  }

  function DigitValue(c: char): nat
    requires IsDigit(c)
  {
    c as int - '0' as int
  }

  function DigitChar(d: nat): (c: char)
    requires d < 10
    ensures IsDigit(c) && DigitValue(c) == d
  {
    ('0' as int + d) as char
  }

  /** The value of a string of digits, most significant first; leading zeros
      are allowed. */
  function DigitsValue(s: string): nat
    requires forall i | 0 <= i < |s| :: IsDigit(s[i])
  {
    if s == [] then 0 else DigitsValue(s[..|s| - 1]) * 10 + DigitValue(s[|s| - 1])
  }

  /** The number a text denotes when it is written in decimal, or `None`. */
  function DecimalValue(s: string): (r: Option<nat>)
    ensures r.Some? <==> IsDecimal(s)
  {
    if IsDecimal(s) then Some(DigitsValue(s)) else None
  }

  /** The decimal numeral of `n`, without leading zeros. */
  function Decimal(n: nat): (s: string)
    ensures IsDecimal(s)
    ensures |s| > 1 ==> s[0] != '0'
  {
    if n < 10 then [DigitChar(n)] else Decimal(n / 10) + [DigitChar(n % 10)]
  }

  /** Reading back a numeral gives the number it was written from. */
  lemma {:induction false} DecimalRoundTrip(n: nat)
    ensures DecimalValue(Decimal(n)) == Some(n)
  {
    var s := Decimal(n);
    if n < 10 {
      assert s == [DigitChar(n)] && s[..|s| - 1] == [];
      assert DigitsValue(s) == DigitsValue([]) * 10 + DigitValue(s[0]);
    } else {
      DecimalRoundTrip(n / 10);
      assert s[..|s| - 1] == Decimal(n / 10);
      assert DigitsValue(s) == DigitsValue(Decimal(n / 10)) * 10 + n % 10;
    }
  }
}

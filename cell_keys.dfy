/**
 * The key under which the rendered-cell cache stores a cell: the template
 * string `${row}-${col}` of the two visual coordinates. Numbers are written
 * in decimal as JavaScript's number-to-string conversion writes a
 * non-negative integer below 10^21.
 */
module CellKeys {

  predicate IsDigit(c: char) {
    '0' <= c <= '9'
  }

  function DigitChar(d: nat): char
    requires d < 10
  {
    "0123456789"[d]
  }

  function DigitValue(c: char): nat
    requires IsDigit(c)
  {
    (c as int - '0' as int) as nat
  }

  /** The decimal rendering of `n`, without leading zeros. */
  function Digits(n: nat): (s: string)
    ensures |s| > 0
    ensures forall i | 0 <= i < |s| :: IsDigit(s[i])
    decreases n
  {
    if n < 10 then [DigitChar(n)] else Digits(n / 10) + [DigitChar(n % 10)]
  }

  /** Reads a string of decimal digits back as a number. */
  function ParseDigits(s: string): nat
    requires forall i | 0 <= i < |s| :: IsDigit(s[i])
  {
    if s == [] then 0 else 10 * ParseDigits(s[..|s| - 1]) + DigitValue(s[|s| - 1])
  }

  lemma {:induction false} ParseDigitsOfDigits(n: nat)
    ensures ParseDigits(Digits(n)) == n
    decreases n
  {
    if n < 10 {
      assert Digits(n)[..0] == [];
    } else {
      var s := Digits(n);
      assert s[..|s| - 1] == Digits(n / 10);
      ParseDigitsOfDigits(n / 10);
    }
  }

  /** Distinct numbers are written differently. */
  lemma DigitsInjective(a: nat, b: nat)
    requires Digits(a) == Digits(b)
    ensures a == b
  {
    ParseDigitsOfDigits(a);
    ParseDigitsOfDigits(b);
  }

  /** The position of the first `-` in `s`, or `|s|` when there is none. */
  function FirstDash(s: string): nat {
    if s == [] || s[0] == '-' then 0 else 1 + FirstDash(s[1..])
  }

  lemma {:induction false} FirstDashAfterDigits(digits: string, rest: string)
    requires forall i | 0 <= i < |digits| :: IsDigit(digits[i])
    ensures FirstDash(digits + "-" + rest) == |digits|
    decreases |digits|
  {
    if digits != [] {
      assert (digits + "-" + rest)[1..] == digits[1..] + "-" + rest;
      FirstDashAfterDigits(digits[1..], rest);
    }
  }

  /** The cache key `${row}-${col}`. */
  function CellKey(row: nat, col: nat): string {
    Digits(row) + "-" + Digits(col)
  }

  /**
   * Two cells share a cache entry only if they are the same cell: the dash
   * is the first non-digit in the key, so it splits the key in one way.
   */
  lemma CellKeyInjective(row1: nat, col1: nat, row2: nat, col2: nat)
    requires CellKey(row1, col1) == CellKey(row2, col2)
    ensures row1 == row2 && col1 == col2
  {
    var key := CellKey(row1, col1);
    var r1, r2 := Digits(row1), Digits(row2);
    FirstDashAfterDigits(r1, Digits(col1));
    FirstDashAfterDigits(r2, Digits(col2));
    assert r1 == key[..|r1|] == r2;
    assert Digits(col1) == key[|r1| + 1..] == Digits(col2);
    DigitsInjective(row1, row2);
    DigitsInjective(col1, col2);
  }
}

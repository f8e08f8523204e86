/**
 * Decimal numerals and Python's `format(n, ',d')`, which writes a
 * non-negative integer in decimal with a comma before every third digit
 * counted from the right.
 */
module Numerals {

  predicate IsDigit(c: char) {
    '0' <= c <= '9'
  }

  predicate AllDigits(s: string) {
    forall i :: 0 <= i < |s| ==> IsDigit(s[i])
  }

  function DigitChar(d: nat): (c: char)
    requires d < 10
    ensures IsDigit(c) && c as int - '0' as int == d
  {
    ('0' as int + d) as char
  }

  /** The decimal numeral of `n` as `str(n)` writes it: digits only, no leading zero. */
  function Decimal(n: nat): (s: string)
    ensures |s| >= 1 && AllDigits(s)
    ensures s[0] == '0' ==> n == 0
  {
    if n < 10 then [DigitChar(n)] else Decimal(n / 10) + [DigitChar(n % 10)]
  }

  /** The value of a string of decimal digits, as `int(s)` reads it. */
  function DigitsValue(s: string): (n: nat)
    requires AllDigits(s)
  {
    if s == [] then 0 else DigitsValue(s[..|s| - 1]) * 10 + (s[|s| - 1] as int - '0' as int)
  }

  /** Reading a numeral back gives the number it was written from. */
  lemma {:induction false} DecimalReadsBack(n: nat)
    ensures DigitsValue(Decimal(n)) == n
  {
    if n >= 10 {
      var s := Decimal(n);
      assert s[..|s| - 1] == Decimal(n / 10);
      DecimalReadsBack(n / 10);
    }
  }

  /** Inserts a comma before every third digit counted from the right. */
  function GroupDigits(s: string): (r: string)
  {
    if |s| <= 3 then s else GroupDigits(s[..|s| - 3]) + "," + s[|s| - 3..]
  }

  /** `format(n, ',d')` for a non-negative `n`. */
  function Grouped(n: nat): (r: string) {
    GroupDigits(Decimal(n))
  }

  /** `s` with every comma removed. */
  function StripCommas(s: string): (r: string) {
    if s == [] then [] else StripCommas(s[..|s| - 1]) + (if s[|s| - 1] == ',' then [] else [s[|s| - 1]])
  }

  lemma {:induction false} StripCommasAppend(a: string, b: string)
    ensures StripCommas(a + b) == StripCommas(a) + StripCommas(b)
  {
    if b != [] {
      assert (a + b)[..|a + b| - 1] == a + b[..|b| - 1];
      StripCommasAppend(a, b[..|b| - 1]);
    } else {
      assert a + b == a;
    }
  }

  lemma {:induction false} StripCommasOfDigits(s: string)
    requires AllDigits(s)
    ensures StripCommas(s) == s
  {
    if s != [] {
      StripCommasOfDigits(s[..|s| - 1]);
      assert s[..|s| - 1] + [s[|s| - 1]] == s;
    }
  }

  /** Grouping only inserts commas: removing them restores the digits. */
  lemma {:induction false} GroupDigitsStrips(s: string)
    requires AllDigits(s)
    ensures StripCommas(GroupDigits(s)) == s
  {
    if |s| <= 3 {
      StripCommasOfDigits(s);
    } else {
      var head, tail := s[..|s| - 3], s[|s| - 3..];
      GroupDigitsStrips(head);
      StripCommasAppend(GroupDigits(head) + ",", tail);
      StripCommasAppend(GroupDigits(head), ",");
      assert StripCommas(",") == [];
      StripCommasOfDigits(tail);
      assert head + tail == s;
    }
  }

  /**
   * The shape of a grouped numeral: a comma stands exactly at the positions
   * whose distance from the end is a multiple of four, and the length itself
   * is not one, so the first group has one to three digits and every later
   * group exactly three.
   */
  predicate ThousandsShape(r: string) {
    |r| % 4 != 0 &&
    forall i :: 0 <= i < |r| ==> (r[i] == ',' <==> (|r| - i) % 4 == 0) && (r[i] != ',' ==> IsDigit(r[i]))
  }

  lemma {:induction false} GroupDigitsShape(s: string)
    requires |s| >= 1 && AllDigits(s)
    ensures ThousandsShape(GroupDigits(s))
  {
    if |s| > 3 {
      var head, tail := s[..|s| - 3], s[|s| - 3..];
      GroupDigitsShape(head);
      var g := GroupDigits(head);
      var r := g + "," + tail;
      assert r == GroupDigits(s);
      forall i | 0 <= i < |r|
        ensures (r[i] == ',' <==> (|r| - i) % 4 == 0) && (r[i] != ',' ==> IsDigit(r[i]))
      {
        if i < |g| {
          assert r[i] == g[i];
          assert (|r| - i) % 4 == (|g| - i) % 4;
        } else if i > |g| {
          assert r[i] == tail[i - |g| - 1];
        }
      }
    }
  }

  /**
   * `format(n, ',d')` read back: without its commas it is the decimal
   * numeral of `n` and has the value `n`, and its commas split it into a
   * first group of one to three digits followed by groups of exactly three.
   */
  lemma GroupedReadsBack(n: nat)
    ensures StripCommas(Grouped(n)) == Decimal(n)
    ensures DigitsValue(Decimal(n)) == n
    ensures ThousandsShape(Grouped(n))
  {
    GroupDigitsStrips(Decimal(n));
    DecimalReadsBack(n);
    GroupDigitsShape(Decimal(n));
  }

}

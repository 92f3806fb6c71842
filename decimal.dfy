/**
  Decimal renderings of integers as the Java code produces them:
  `Integer.toString` / `Long.toString` (an optional '-' and the digits of
  the magnitude, no leading zeros) and the integer rendering `MessageFormat`
  uses for a `{n}` argument (the same digits, grouped by three with ','
  as the default locale's grouping separator). A parser is given beside
  them as the inverse the renderings are proved against.
*/
module Decimal {
  import opened Optional

  predicate IsDigit(c: char) {
    '0' <= c <= '9'
  }

  predicate AllDigits(s: string) {
    forall i :: 0 <= i < |s| ==> IsDigit(s[i])
  }

  function DigitValue(c: char): (d: nat)
    requires IsDigit(c)
    ensures d < 10
  {
    c as int - '0' as int
  }

  function DigitChar(d: nat): (c: char)
    requires d < 10
    ensures IsDigit(c) && DigitValue(c) == d
  {
    ('0' as int + d) as char
  }

  /** The digits of `n`, most significant first, without leading zeros. */
  function NatToString(n: nat): (s: string)
    ensures |s| >= 1 && AllDigits(s)
    ensures s[0] == '0' ==> n == 0
    decreases n
  {
    if n < 10 then [DigitChar(n)] else NatToString(n / 10) + [DigitChar(n % 10)]
  }

  /** `Integer.toString(i)` and `Long.toString(i)`. */
  function IntToString(i: int): (s: string)
    ensures |s| >= 1
    ensures i >= 0 ==> AllDigits(s) && (s[0] == '0' ==> i == 0)
    ensures i < 0 ==> |s| >= 2 && s[0] == '-' && AllDigits(s[1..]) && s[1] != '0'
  {
    if i < 0 then "-" + NatToString(-i) else NatToString(i)
  }

  /** The value of a run of decimal digits (leading zeros allowed). */
  function DigitsValue(s: string): nat
    requires AllDigits(s)
    decreases |s|
  {
    if s == [] then 0 else DigitsValue(s[..|s| - 1]) * 10 + DigitValue(s[|s| - 1])
  }

  /** Reads back an optional '-' followed by at least one digit. */
  function ParseInt(s: string): Option<int>
  {
    if |s| >= 2 && s[0] == '-' && AllDigits(s[1..]) then Some(0 - DigitsValue(s[1..]) as int)
    else if |s| >= 1 && AllDigits(s) then Some(DigitsValue(s))
    else None
  }

  lemma {:induction false} DigitsValueOfNatToString(n: nat)
    ensures DigitsValue(NatToString(n)) == n
  {
    if n >= 10 {
      var s := NatToString(n);
      assert s[..|s| - 1] == NatToString(n / 10);
      DigitsValueOfNatToString(n / 10);
    }
  }

  /** Parsing the rendering of any integer gives that integer back. */
  lemma IntToStringRoundTrip(i: int)
    ensures ParseInt(IntToString(i)) == Some(i)
  {
    var s := IntToString(i);
    if i < 0 {
      var digits := NatToString(-i);
      assert s == "-" + digits;
      assert s[1..] == digits;
      DigitsValueOfNatToString(-i);
      assert ParseInt(s) == Some(0 - DigitsValue(digits) as int);
    } else {
      assert s == NatToString(i);
      assert IsDigit(s[0]);
      DigitsValueOfNatToString(i);
      assert ParseInt(s) == Some(DigitsValue(s));
    }
  }

  /** Distinct integers never share a rendering. */
  lemma IntToStringInjective(i: int, j: int)
    ensures IntToString(i) == IntToString(j) ==> i == j
  {
    IntToStringRoundTrip(i);
    IntToStringRoundTrip(j);
  }

  /** Three digits with leading zeros: the groups after the first one. */
  function Pad3(n: nat): (s: string)
    requires n < 1000
    ensures |s| == 3 && AllDigits(s) && DigitsValue(s) == n
  {
    var hundreds := [DigitChar(n / 100)];
    assert hundreds[..0] == [];
    var tens := hundreds + [DigitChar(n / 10 % 10)];
    assert tens[..1] == hundreds;
    var s := tens + [DigitChar(n % 10)];
    assert s[..2] == tens;
    assert DigitsValue(tens) == n / 10 by {
      assert DigitsValue(hundreds) == n / 100;
      assert DigitsValue(tens) == n / 100 * 10 + n / 10 % 10;
      assert n / 10 == n / 10 / 10 * 10 + n / 10 % 10;
      assert n / 10 / 10 == n / 100;
    }
    s
  }

  /**
    The rendering `MessageFormat` gives an integer argument: the digits
    grouped by three, the groups separated by ','.
  */
  function GroupedDecimal(n: nat): (s: string)
    ensures |s| >= 1
    ensures ',' in s <==> n >= 1000
    decreases n
  {
    if n < 1000 then NatToString(n) else GroupedDecimal(n / 1000) + "," + Pad3(n % 1000)
  }

  /** `s` with every grouping ',' removed. */
  function Ungrouped(s: string): (r: string)
    ensures |r| <= |s|
    ensures ',' !in r
    ensures ',' !in s ==> r == s
  {
    if s == [] then [] else (if s[0] == ',' then [] else [s[0]]) + Ungrouped(s[1..])
  }

  lemma {:induction false} UngroupedAppend(a: string, b: string)
    ensures Ungrouped(a + b) == Ungrouped(a) + Ungrouped(b)
    decreases |a|
  {
    if a == [] {
      assert a + b == b;
    } else {
      assert (a + b)[0] == a[0];
      assert (a + b)[1..] == a[1..] + b;
      UngroupedAppend(a[1..], b);
    }
  }

  /** One more low digit appends its character to a positive number's digits. */
  lemma NatToStringPushDigit(a: nat, d: nat)
    requires a >= 1 && d < 10
    ensures NatToString(a * 10 + d) == NatToString(a) + [DigitChar(d)]
  {
    assert (a * 10 + d) / 10 == a && (a * 10 + d) % 10 == d;
  }

  /** The digits of `a * 1000 + b` are those of `a` followed by `b` padded to three. */
  lemma NatToStringThousands(a: nat, b: nat)
    requires a >= 1 && b < 1000
    ensures NatToString(a * 1000 + b) == NatToString(a) + Pad3(b)
  {
    NatToStringPushDigit(a, b / 100);
    NatToStringPushDigit(a * 10 + b / 100, b / 10 % 10);
    assert (a * 10 + b / 100) * 10 + b / 10 % 10 == a * 100 + b / 10;
    NatToStringPushDigit(a * 100 + b / 10, b % 10);
    assert (a * 100 + b / 10) * 10 + b % 10 == a * 1000 + b;
    var p := Pad3(b);
    assert p == [DigitChar(b / 100), DigitChar(b / 10 % 10), DigitChar(b % 10)];
  }

  /** Removing the grouping separators gives the plain digits of `n` back. */
  lemma {:induction false} UngroupedGroupedDecimal(n: nat)
    ensures Ungrouped(GroupedDecimal(n)) == NatToString(n)
    decreases n
  {
    if n >= 1000 {
      var hi, lo := GroupedDecimal(n / 1000), Pad3(n % 1000);
      assert GroupedDecimal(n) == hi + "," + lo;
      UngroupedAppend(hi + ",", lo);
      UngroupedAppend(hi, ",");
      assert Ungrouped(",") == [];
      UngroupedGroupedDecimal(n / 1000);
      NatToStringThousands(n / 1000, n % 1000);
      assert n / 1000 * 1000 + n % 1000 == n;
    }
  }

  /** Below 1000 the grouped rendering is the plain one. */
  lemma GroupedBelowThousand(n: nat)
    ensures n < 1000 ==> GroupedDecimal(n) == NatToString(n)
  {
  }
}

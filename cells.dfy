/** Value cells of the score table and the text-to-number cleaning step.
    A pandas cell after `pd.to_numeric(..., errors='coerce')` is either a number
    or NaN; here a number is an unbounded integer and NaN is `Missing`. */
module Cells {

  datatype Cell = Missing | Num(value: int)

  /** `str.replace(',', '')`: every grouping comma removed, everything else kept in order. */
  function StripCommas(s: string): (r: string)
    ensures ',' !in r
    ensures ',' !in s ==> r == s
    ensures |r| <= |s|
  {
    if s == [] then []
    else (if s[0] == ',' then [] else [s[0]]) + StripCommas(s[1..])
  }

  /** Exactly the commas are removed: every other character stays. */
  lemma {:induction false} StripCommasKeeps(s: string, c: char)
    ensures c in StripCommas(s) <==> c in s && c != ','
  {
    if s != [] {
      StripCommasKeeps(s[1..], c);
      assert c in s <==> c == s[0] || c in s[1..];
    }
  }

  lemma {:induction false} StripCommasAppend(a: string, b: string)
    ensures StripCommas(a + b) == StripCommas(a) + StripCommas(b)
  {
    if a == [] {
      assert a + b == b;
    } else {
      assert (a + b)[0] == a[0] && (a + b)[1..] == a[1..] + b;
      StripCommasAppend(a[1..], b);
    }
  }

  predicate IsDigit(c: char) { '0' <= c <= '9' }

  function DigitValue(c: char): (d: nat)
    requires IsDigit(c)
    ensures d < 10
  {
    (c as int) - ('0' as int)
  }

  function DigitChar(d: nat): (c: char)
    requires d < 10
    ensures IsDigit(c) && DigitValue(c) == d
  {
    ((('0' as int) + d) as char)
  }

  predicate AllDigits(s: string) { forall i :: 0 <= i < |s| ==> IsDigit(s[i]) }

  /** A non-empty run of decimal digits. */
  predicate IsDigits(s: string) { |s| > 0 && AllDigits(s) }

  /** Value of a digit string, most significant digit first. */
  function DigitsValue(s: string): nat
    requires AllDigits(s)
  {
    if s == [] then 0 else DigitsValue(s[..|s| - 1]) * 10 + DigitValue(s[|s| - 1])
  }

  /** The integer numerals the model accepts: digits with an optional leading minus sign. */
  predicate IsNumeral(s: string)
  {
    IsDigits(s) || (|s| > 1 && s[0] == '-' && IsDigits(s[1..]))
  }

  /** `pd.to_numeric(s, errors='coerce')` restricted to integer numerals:
      anything that does not parse becomes Missing, never an error. */
  function ParseNumeral(s: string): (c: Cell)
    ensures c.Num? <==> IsNumeral(s)
    ensures IsDigits(s) ==> c == Num(DigitsValue(s))
    ensures !IsDigits(s) && IsNumeral(s) ==> c == Num(-(DigitsValue(s[1..]) as int))
  {
    if IsDigits(s) then Num(DigitsValue(s))
    else if |s| > 1 && s[0] == '-' && IsDigits(s[1..]) then Num(-(DigitsValue(s[1..]) as int))
    else Missing
  }

  /** The cleaning of one raw cell: commas removed, then coerced to a number. */
  function CleanCell(raw: string): (c: Cell)
    ensures c.Num? <==> IsNumeral(StripCommas(raw))
    ensures ',' !in raw ==> c == ParseNumeral(raw)
  {
    ParseNumeral(StripCommas(raw))
  }

  // ---------------------------------------------------------------------------
  // Thousands-grouped rendering, the format of `f"{n:,}"`, and its inverse.

  function ShowNat(n: nat): (s: string)
    ensures IsDigits(s)
  {
    if n < 10 then [DigitChar(n)] else ShowNat(n / 10) + [DigitChar(n % 10)]
  }

  /** Exactly three digits, with leading zeros. */
  function Pad3(m: nat): (s: string)
    requires m < 1000
    ensures |s| == 3 && AllDigits(s)
  {
    [DigitChar(m / 100), DigitChar(m / 10 % 10), DigitChar(m % 10)]
  }

  function Grouped(n: nat): string
  {
    if n < 1000 then ShowNat(n) else Grouped(n / 1000) + "," + Pad3(n % 1000)
  }

  /** `f"{n:,}"` for an integer n. */
  function FormatThousands(n: int): string
  {
    if n < 0 then "-" + Grouped(-n) else Grouped(n)
  }

  lemma {:induction false} ShowNatValue(n: nat)
    ensures DigitsValue(ShowNat(n)) == n
  {
    if n >= 10 {
      var s := ShowNat(n);
      assert s[..|s| - 1] == ShowNat(n / 10);
      ShowNatValue(n / 10);
    }
  }

  lemma ShowNatSplit(n: nat)
    requires n >= 1000
    ensures ShowNat(n) == ShowNat(n / 1000) + Pad3(n % 1000)
  {
    var q, m := n / 1000, n % 1000;
    assert n / 10 == 100 * q + m / 10;
    assert n / 100 == 10 * q + m / 100;
    assert n / 10 / 10 == n / 100;
    assert n / 100 / 10 == q;
    assert n % 10 == m % 10;
    assert n / 10 % 10 == m / 10 % 10;
    assert n / 100 % 10 == m / 100;
    calc {
      ShowNat(n);
      ShowNat(n / 10) + [DigitChar(n % 10)];
      ShowNat(n / 100) + [DigitChar(n / 10 % 10)] + [DigitChar(n % 10)];
      ShowNat(q) + [DigitChar(n / 100 % 10)] + [DigitChar(n / 10 % 10)] + [DigitChar(n % 10)];
      ShowNat(q) + Pad3(m);
    }
  }

  lemma {:induction false} StripGrouped(n: nat)
    ensures StripCommas(Grouped(n)) == ShowNat(n)
  {
    if n >= 1000 {
      var p := Pad3(n % 1000);
      assert ',' !in p by {
        forall i | 0 <= i < |p| ensures p[i] != ',' { assert IsDigit(p[i]); }
      }
      StripCommasAppend(Grouped(n / 1000) + ",", p);
      StripCommasAppend(Grouped(n / 1000), ",");
      StripGrouped(n / 1000);
      ShowNatSplit(n);
    } else {
      var s := ShowNat(n);
      assert ',' !in s by {
        forall i | 0 <= i < |s| ensures s[i] != ',' { assert IsDigit(s[i]); }
      }
    }
  }

  /** Cleaning undoes thousands grouping: a cell written as `f"{n:,}"`
      (for instance "1,000" or "-12,345") is read back as the number n. */
  lemma CleanFormatted(n: int)
    ensures CleanCell(FormatThousands(n)) == Num(n)
  {
    if n < 0 {
      var m: nat := -n;
      assert FormatThousands(n) == "-" + Grouped(m);
      StripCommasAppend("-", Grouped(m));
      StripGrouped(m);
      ShowNatValue(m);
      var s := StripCommas(FormatThousands(n));
      assert s == "-" + ShowNat(m);
      assert s[1..] == ShowNat(m);
      assert !IsDigit(s[0]);
      assert ParseNumeral(s) == Num(-(DigitsValue(s[1..]) as int));
    } else {
      StripGrouped(n);
      ShowNatValue(n);
    }
  }

  /** NaN-propagating subtraction, as pandas' `a - b` on numeric columns. */
  function Difference(cur: Cell, prev: Cell): (r: Cell)
    ensures r.Missing? <==> cur.Missing? || prev.Missing?
    ensures r.Num? ==> r.value + prev.value == cur.value
  {
    if cur.Num? && prev.Num? then Num(cur.value - prev.value) else Missing
  }

  /** The contribution of a cell to a NaN-skipping sum. */
  function ValueOrZero(c: Cell): int
  {
    if c.Num? then c.value else 0
  }
}

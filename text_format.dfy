/** Decimal rendering of integers as the program produces it: the `%d` verb of
    Go's fmt package (the wait notice) and the zero-padded numeric fields of
    Go's time layouts (the daily log file name). */
module TextFormat {

  import opened Wrappers

  predicate IsDigit(c: char) {
    '0' <= c <= '9'
  }

  predicate AllDigits(s: string) {
    forall i :: 0 <= i < |s| ==> IsDigit(s[i])
  }

  function DigitChar(d: nat): (c: char)
    requires d < 10
    ensures IsDigit(c)
  {
    (48 + d) as char
  }

  function DigitValue(c: char): (d: nat)
    requires IsDigit(c)
    ensures d < 10 && DigitChar(d) == c
  {
    c as int - 48
  }

  /** Shortest decimal numeral of `n`: never empty, no leading zero. */
  function DecimalString(n: nat): (s: string)
    ensures 1 <= |s| && AllDigits(s)
    ensures |s| > 1 ==> s[0] != '0'
  {
    if n < 10 then [DigitChar(n)] else DecimalString(n / 10) + [DigitChar(n % 10)]
  }

  /** The number a string of digits denotes (most significant digit first). */
  function DecimalValue(s: string): nat
    requires AllDigits(s)
  {
    if s == [] then 0 else DecimalValue(s[..|s| - 1]) * 10 + DigitValue(s[|s| - 1])
  }

  lemma {:induction false} DecimalRoundTrip(n: nat)
    ensures DecimalValue(DecimalString(n)) == n
  {
    var s := DecimalString(n);
    if n >= 10 {
      DecimalRoundTrip(n / 10);
      assert s[..|s| - 1] == DecimalString(n / 10);
    }
  }

  lemma DecimalValueOfTwo(s: string)
    requires |s| == 2 && AllDigits(s)
    ensures DecimalValue(s) == DigitValue(s[0]) * 10 + DigitValue(s[1])
  {
    var head := s[..1];
    assert head[..0] == [] && head[0] == s[0];
    assert DecimalValue(head) == DigitValue(s[0]);
  }

  lemma DecimalValueOfFour(s: string)
    requires |s| == 4 && AllDigits(s)
    ensures DecimalValue(s) ==
            DigitValue(s[0]) * 1000 + DigitValue(s[1]) * 100 + DigitValue(s[2]) * 10 + DigitValue(s[3])
  {
    assert s[..3][..2] == s[..2];
    DecimalValueOfTwo(s[..2]);
  }

  /** Go's `%d` verb: an optional minus sign followed by the shortest numeral. */
  function FormatInt(x: int): (s: string)
  {
    if x < 0 then "-" + DecimalString(-x) else DecimalString(x)
  }

  /** Reads back what FormatInt writes; the reference inverse of FormatInt. */
  function ParseInt(s: string): Option<int> {
    if |s| >= 2 && s[0] == '-' && AllDigits(s[1..]) then Some(-(DecimalValue(s[1..]) as int))
    else if |s| >= 1 && AllDigits(s) then Some(DecimalValue(s))
    else None
  }

  lemma FormatIntRoundTrip(x: int)
    ensures ParseInt(FormatInt(x)) == Some(x)
  {
    if x < 0 {
      DecimalRoundTrip(-x);
      assert FormatInt(x)[1..] == DecimalString(-x);
    } else {
      DecimalRoundTrip(x);
    }
  }

  /** Left-pads `s` with '0' up to `width` characters. */
  function ZeroPad(s: string, width: nat): (r: string)
    ensures |r| == if |s| >= width then |s| else width
    ensures r[|r| - |s|..] == s
    ensures forall i :: 0 <= i < |r| - |s| ==> r[i] == '0'
  {
    if |s| >= width then s else seq(width - |s|, _ => '0') + s
  }

  /** Go's time-layout integer field: an optional minus sign, then the
      magnitude zero-padded to `width` digits. The two- and four-digit cases
      are written digit by digit, as Go writes them; FastPathsAgree shows they
      coincide with the general case. */
  function AppendInt(x: int, width: nat): (s: string)
    ensures x >= 0 ==> AllDigits(s) && |s| >= width
    ensures x < 0 ==> |s| >= 2 && s[0] == '-' && AllDigits(s[1..])
  {
    if x < 0 then "-" + PaddedMagnitude(-x, width) else PaddedMagnitude(x, width)
  }

  /** The magnitude part of AppendInt. */
  function PaddedMagnitude(u: nat, width: nat): string {
    if width == 2 && u < 100 then
      [DigitChar(u / 10), DigitChar(u % 10)]
    else if width == 4 && u < 10000 then
      [DigitChar(u / 1000), DigitChar(u / 100 % 10), DigitChar(u / 10 % 10), DigitChar(u % 10)]
    else
      ZeroPad(DecimalString(u), width)
  }

  lemma TwoDigitPathAgrees(u: nat)
    requires u < 100
    ensures PaddedMagnitude(u, 2) == ZeroPad(DecimalString(u), 2)
  {
    if u < 10 {
      assert u / 10 == 0 && u % 10 == u;
      assert ZeroPad([DigitChar(u)], 2) == ['0', DigitChar(u)];
    } else {
      assert DecimalString(u / 10) == [DigitChar(u / 10)];
      assert DecimalString(u) == [DigitChar(u / 10), DigitChar(u % 10)];
    }
  }

  lemma DivTen(u: nat)
    ensures u / 10 / 10 == u / 100 && u / 100 / 10 == u / 1000
  {
  }

  lemma ThreeDigits(u: nat)
    requires 100 <= u < 1000
    ensures DecimalString(u) == [DigitChar(u / 100), DigitChar(u / 10 % 10), DigitChar(u % 10)]
  {
    DivTen(u);
    assert DecimalString(u / 10) == [DigitChar(u / 10 / 10), DigitChar(u / 10 % 10)];
  }

  lemma FourDigits(u: nat)
    requires 1000 <= u < 10000
    ensures DecimalString(u) == [DigitChar(u / 1000), DigitChar(u / 100 % 10), DigitChar(u / 10 % 10), DigitChar(u % 10)]
  {
    DivTen(u);
    ThreeDigits(u / 10);
    assert u / 10 / 100 == u / 1000 && u / 10 / 10 % 10 == u / 100 % 10;
  }

  lemma FourDigitPathAgrees(u: nat)
    requires u < 10000
    ensures PaddedMagnitude(u, 4) == ZeroPad(DecimalString(u), 4)
  {
    var digits := [DigitChar(u / 1000), DigitChar(u / 100 % 10), DigitChar(u / 10 % 10), DigitChar(u % 10)];
    assert PaddedMagnitude(u, 4) == digits;
    if u < 10 {
      OneDigitPadded(u);
    } else if u < 100 {
      TwoDigitsPadded(u);
    } else if u < 1000 {
      ThreeDigitsPadded(u);
    } else {
      FourDigits(u);
    }
  }

  lemma OneDigitPadded(u: nat)
    requires u < 10
    ensures ZeroPad(DecimalString(u), 4) ==
            [DigitChar(u / 1000), DigitChar(u / 100 % 10), DigitChar(u / 10 % 10), DigitChar(u % 10)]
  {
    assert u / 1000 == 0 && u / 100 % 10 == 0 && u / 10 % 10 == 0 && u % 10 == u;
    assert ZeroPad(DecimalString(u), 4) == seq(3, _ => '0') + [DigitChar(u)];
  }

  lemma TwoDigitsPadded(u: nat)
    requires 10 <= u < 100
    ensures ZeroPad(DecimalString(u), 4) ==
            [DigitChar(u / 1000), DigitChar(u / 100 % 10), DigitChar(u / 10 % 10), DigitChar(u % 10)]
  {
    assert u / 1000 == 0 && u / 100 % 10 == 0 && u / 10 % 10 == u / 10;
    assert DecimalString(u) == DecimalString(u / 10) + [DigitChar(u % 10)];
    assert ZeroPad(DecimalString(u), 4) == seq(2, _ => '0') + [DigitChar(u / 10), DigitChar(u % 10)];
  }

  lemma ThreeDigitsPadded(u: nat)
    requires 100 <= u < 1000
    ensures ZeroPad(DecimalString(u), 4) ==
            [DigitChar(u / 1000), DigitChar(u / 100 % 10), DigitChar(u / 10 % 10), DigitChar(u % 10)]
  {
    assert u / 1000 == 0 && u / 100 % 10 == u / 100;
    ThreeDigits(u);
    assert ZeroPad(DecimalString(u), 4) == seq(1, _ => '0') + DecimalString(u);
  }

  /** The digit-by-digit two- and four-digit cases of AppendInt are only a
      shortcut: the field always equals sign plus zero-padded numeral. */
  lemma FastPathsAgree(x: int, width: nat)
    ensures AppendInt(x, width) ==
            (if x < 0 then "-" else "") + ZeroPad(DecimalString(if x < 0 then -x else x), width)
  {
    var u := if x < 0 then -x else x;
    assert AppendInt(x, width) == (if x < 0 then "-" else "") + PaddedMagnitude(u, width);
    if width == 2 && u < 100 {
      TwoDigitPathAgrees(u);
    } else if width == 4 && u < 10000 {
      FourDigitPathAgrees(u);
    } else {
      assert PaddedMagnitude(u, width) == ZeroPad(DecimalString(u), width);
    }
  }
}

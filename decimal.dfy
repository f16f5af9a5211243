/**
 * Decimal text of non-negative integers, as JavaScript writes a number into
 * a template literal (`${i}`), and the reading of a plain digit string back
 * into a number, as unary `+` does for such a string.
 */
module Decimal {

  predicate IsDigit(c: char) {
    '0' <= c <= '9'
  }

  predicate AllDigits(s: string) {
    forall i :: 0 <= i < |s| ==> IsDigit(s[i])
  }

  function DigitValue(c: char): (d: nat)
    requires IsDigit(c)
    ensures d < 10
  {
    c as int - '0' as int
  }

  function DigitChar(d: nat): (c: char)
    requires d < 10
    ensures IsDigit(c) && DigitValue(c) == d
  {
    ('0' as int + d) as char
  }

  /** The shortest decimal text of `n`: digits only, no leading zero. */
  function Show(n: nat): (s: string)
    ensures |s| > 0 && AllDigits(s)
    ensures s[0] == '0' ==> s == "0"
    ensures n < 10 <==> |s| == 1
  {
    if n < 10 then [DigitChar(n)] else Show(n / 10) + [DigitChar(n % 10)]
  }

  /** The value of a string of decimal digits (the empty string reads as 0). */
  function Parse(s: string): (n: nat)
    requires AllDigits(s)
  {
    if s == [] then 0 else Parse(s[..|s| - 1]) * 10 + DigitValue(s[|s| - 1])
  }

  /** Reading back the text of a number gives the number. */
  lemma {:induction false} ParseShow(n: nat)
    ensures Parse(Show(n)) == n
  {
    if n >= 10 {
      var s := Show(n);
      assert s[..|s| - 1] == Show(n / 10);
      ParseShow(n / 10);
    }
  }

  lemma DigitSplit(p: nat, d: nat)
    requires p > 0 && d < 10
    ensures (p * 10 + d) / 10 == p && (p * 10 + d) % 10 == d && p * 10 + d >= 10
  {
  }

  /**
   * The other round trip: a digit string without a leading zero (or "0"
   * itself) is the text of its own value.
   */
  lemma {:induction false} ShowParse(s: string)
    requires AllDigits(s) && s != [] && (s[0] == '0' ==> s == "0")
    ensures Show(Parse(s)) == s
  {
    var init, last := s[..|s| - 1], s[|s| - 1];
    var d := DigitValue(last);
    assert DigitChar(d) == last;
    if init == [] {
      assert s == [last];
    } else {
      assert init[0] == s[0] != '0';
      ShowParse(init);
      var p := Parse(init);
      var n := p * 10 + d;
      DigitSplit(p, d);
      assert Show(n) == Show(p) + [DigitChar(d)];
      assert s == init + [last];
    }
  }

  /** Distinct numbers have distinct texts. */
  lemma ShowInjective(m: nat, n: nat)
    ensures Show(m) == Show(n) ==> m == n
  {
    ParseShow(m);
    ParseShow(n);
  }
}

/** The display strings written into the ledger: decimal numbers, money with two
    decimals and the title-cased transaction type. */
module Format {

  predicate IsDigit(c: char) {
    '0' <= c <= '9'
  }

  function DigitChar(d: nat): (c: char)
    requires d < 10
    ensures IsDigit(c)
  {
    "0123456789"[d]
  }

  /** Decimal notation of a natural number, without leading zeros. */
  function NatToString(n: nat): (r: string)
    ensures 1 <= |r|
    ensures forall i :: 0 <= i < |r| ==> IsDigit(r[i])
    decreases n
  {
    if n < 10 then [DigitChar(n)] else NatToString(n / 10) + [DigitChar(n % 10)]
  }

  /** The number a non-empty string of decimal digits stands for. */
  function DigitsValue(s: string): (v: nat)
    requires forall i :: 0 <= i < |s| ==> IsDigit(s[i])
    decreases |s|
  {
    if s == [] then 0
    else
      var last := s[|s| - 1];
      assert IsDigit(last);
      DigitsValue(s[..|s| - 1]) * 10 + (last as int - '0' as int)
  }

  lemma DigitCharValue(d: nat)
    requires d < 10
    ensures DigitChar(d) as int - '0' as int == d
  {
    if d == 0 { } else if d == 1 { } else if d == 2 { } else if d == 3 { } else if d == 4 { }
    else if d == 5 { } else if d == 6 { } else if d == 7 { } else if d == 8 { } else { }
  }

  /** The digits `NatToString` writes stand for the number itself. */
  lemma {:induction false} NatToStringValue(n: nat)
    ensures DigitsValue(NatToString(n)) == n
    decreases n
  {
    var s := NatToString(n);
    if n < 10 {
      DigitCharValue(n);
      assert s[..|s| - 1] == [];
    } else {
      NatToStringValue(n / 10);
      DigitCharValue(n % 10);
      assert s[..|s| - 1] == NatToString(n / 10);
    }
  }

  /** An amount of pence written as pounds with two decimals, as Python's `:.2f`
      writes a whole number of pence. */
  function Money(pence: int): (r: string)
    ensures 4 <= |r|
  {
    var p: nat := if pence < 0 then -pence else pence;
    (if pence < 0 then "-" else "") + NatToString(p / 100) + "." + [DigitChar(p % 100 / 10), DigitChar(p % 10)]
  }

  /** Two digit characters stand for the number below 100 they were made from. */
  lemma TwoDigitsValue(x: nat)
    requires x < 100
    ensures DigitsValue([DigitChar(x / 10), DigitChar(x % 10)]) == x
  {
    var t := [DigitChar(x / 10), DigitChar(x % 10)];
    DigitCharValue(x / 10);
    DigitCharValue(x % 10);
    assert t[..1] == [DigitChar(x / 10)];
    assert t[..1][..0] == [];
    assert DigitsValue(t[..1]) == x / 10;
    assert DigitsValue(t) == DigitsValue(t[..1]) * 10 + x % 10;
  }

  /** `Money` of a non-negative amount is digits, a point and two digits: the
      digits before the point stand for the whole pounds and the two after it
      for the remaining pence. */
  lemma MoneyValue(pence: nat)
    ensures var m := Money(pence);
            var k := |m| - 3;
            && m[k] == '.'
            && (forall i :: 0 <= i < |m| && i != k ==> IsDigit(m[i]))
            && DigitsValue(m[..k]) == pence / 100
            && DigitsValue(m[k + 1..]) == pence % 100
  {
    var m := Money(pence);
    var k := |m| - 3;
    var whole := NatToString(pence / 100);
    var frac := [DigitChar(pence % 100 / 10), DigitChar(pence % 10)];
    assert m == whole + "." + frac;
    assert m[..k] == whole;
    assert m[k + 1..] == frac;
    NatToStringValue(pence / 100);
    assert pence % 10 == pence % 100 % 10;
    TwoDigitsValue(pence % 100);
  }

  /** `Money` of a negative amount is a minus sign before the amount's magnitude,
      as `:.2f` writes a negative number. */
  lemma MoneyNegative(pence: int)
    requires pence < 0
    ensures Money(pence) == "-" + Money(-pence)
  {
  }

  predicate IsLowerAscii(c: char) {
    'a' <= c <= 'z'
  }

  predicate IsUpperAscii(c: char) {
    'A' <= c <= 'Z'
  }

  function Upper(c: char): (r: char)
    ensures !IsLowerAscii(r)
  {
    if IsLowerAscii(c) then (c as int - 32) as char else c
  }

  function Lower(c: char): (r: char)
    ensures !IsUpperAscii(r)
  {
    if IsUpperAscii(c) then (c as int + 32) as char else c
  }

  /** Python's `str.title()` on a single word of ASCII letters. */
  function Title(w: string): (r: string) {
    if w == [] then [] else [Upper(w[0])] + seq(|w| - 1, i requires 0 <= i < |w| - 1 => Lower(w[i + 1]))
  }

  /** `Title` keeps the word's letters, ignoring case, and leaves the first one
      upper case and the rest lower case. */
  lemma TitleLetters(w: string)
    ensures |Title(w)| == |w|
    ensures forall i :: 0 <= i < |w| ==> Lower(Title(w)[i]) == Lower(w[i])
    ensures w != [] ==> !IsLowerAscii(Title(w)[0])
    ensures forall i :: 0 < i < |w| ==> !IsUpperAscii(Title(w)[i])
  {
  }
}

/**
 * Decimal text of an integer, as Python's str() writes an `int`:
 * an optional leading '-', then the digits without leading zeros.
 * The playlist interpolates the integer channel id this way.
 */
module Decimal {
  import opened Wrappers

  predicate IsDigit(ch: char) {
    '0' <= ch <= '9'
  }

  predicate AllDigits(s: string) {
    forall i :: 0 <= i < |s| ==> IsDigit(s[i])
  }

  function DigitChar(d: nat): (ch: char)
    requires d < 10
    ensures IsDigit(ch) && ch as int - '0' as int == d
  {
    ('0' as int + d) as char
  }

  /** Digits of a natural number, most significant first. */
  function ShowNat(n: nat): (r: string)
    ensures |r| > 0 && AllDigits(r)
    ensures n > 0 ==> r[0] != '0'
    ensures n == 0 ==> r == "0"
  {
    if n < 10 then [DigitChar(n)] else ShowNat(n / 10) + [DigitChar(n % 10)]
  }

  /** str(n) for a Python int n. */
  function Show(n: int): (r: string)
    ensures |r| > 0
    ensures forall i :: 0 <= i < |r| ==> IsDigit(r[i]) || (i == 0 && r[i] == '-')
    ensures (r[0] == '-') <==> n < 0
    ensures r[0] == '0' ==> r == "0"
    ensures n < 0 ==> |r| > 1 && r[1] != '0'
  {
    if n < 0 then "-" + ShowNat(-n) else ShowNat(n)
  }

  /** Value of a string of digits. */
  function DigitsValue(s: string): nat
    requires AllDigits(s)
  {
    if |s| == 0 then 0 else DigitsValue(s[..|s| - 1]) * 10 + (s[|s| - 1] as int - '0' as int)
  }

  /** Reads back what Show writes: an optional '-', then at least one digit. */
  function Parse(s: string): Option<int> {
    if |s| > 1 && s[0] == '-' && AllDigits(s[1..]) then Some(-(DigitsValue(s[1..]) as int))
    else if |s| > 0 && AllDigits(s) then Some(DigitsValue(s))
    else None
  }

  lemma {:induction false} DigitsValueShowNat(n: nat)
    ensures DigitsValue(ShowNat(n)) == n
  {
    if n >= 10 {
      var s := ShowNat(n);
      assert s[..|s| - 1] == ShowNat(n / 10);
      DigitsValueShowNat(n / 10);
    }
  }

  /** The text of an id determines the id. */
  lemma ParseShow(n: int)
    ensures Parse(Show(n)) == Some(n)
  {
    if n < 0 {
      var s := Show(n);
      assert s[1..] == ShowNat(-n);
      DigitsValueShowNat(-n);
    } else {
      DigitsValueShowNat(n);
    }
  }

  /** An id's text is free of the characters the playlist format treats specially. */
  lemma ShowIsPlain(n: int)
    ensures '"' !in Show(n) && '\n' !in Show(n) && '=' !in Show(n)
  {
  }
}

/** Decimal text of natural numbers: the standard integer printer, and the standard parsers that also
    take a sign and leading zeros. */
module Decimal {
  import opened Rdf

  predicate IsDigit(c: char) {
    '0' <= c <= '9'
  }

  predicate IsDigits(s: string) {
    s != [] && forall i :: 0 <= i < |s| ==> IsDigit(s[i])
  }

  function DigitChar(d: nat): (c: char)
    requires d < 10
    ensures IsDigit(c) && c as int - '0' as int == d
  {
    ('0' as int + d) as char
  }

  function Print(n: nat): (s: string)
    ensures IsDigits(s)
  {
    if n < 10 then [DigitChar(n)] else Print(n / 10) + [DigitChar(n % 10)]
  }

  function ValueOf(s: string): nat
    requires forall i :: 0 <= i < |s| ==> IsDigit(s[i])
  {
    if s == [] then 0
    else
      var last := s[|s| - 1];
      assert IsDigit(last);
      ValueOf(s[..|s| - 1]) * 10 + (last as int - '0' as int)
  }

  /** Unsigned parse: an optional `+`, then at least one digit. */
  function ParseNat(s: string): Option<nat> {
    var digits := if s != [] && s[0] == '+' then s[1..] else s;
    if IsDigits(digits) then Some(ValueOf(digits)) else None
  }

  /** Reading back what was printed gives the number. */
  lemma {:induction false} PrintValue(n: nat)
    ensures ValueOf(Print(n)) == n
  {
    if n >= 10 {
      PrintValue(n / 10);
      var s := Print(n);
      assert s[..|s| - 1] == Print(n / 10);
    } else {
      assert Print(n)[..0] == [];
    }
  }

  lemma ParsePrint(n: nat)
    ensures ParseNat(Print(n)) == Some(n)
  {
    PrintValue(n);
    assert IsDigit(Print(n)[0]);
  }

  /** A printed number has no superfluous zero in front. */
  lemma {:induction false} PrintNoLeadingZero(n: nat)
    ensures Print(n)[0] == '0' ==> n == 0
  {
    if n >= 10 {
      PrintNoLeadingZero(n / 10);
      assert Print(n)[0] == Print(n / 10)[0];
    }
  }

  lemma PrintAppend(v: nat, d: nat)
    requires v > 0 && d < 10
    ensures Print(v * 10 + d) == Print(v) + [DigitChar(d)]
  {
    var n := v * 10 + d;
    assert n / 10 == v && n % 10 == d;
  }

  /** Digits without a superfluous leading zero are exactly the printed numbers. */
  lemma {:induction false} DigitsArePrinted(s: string)
    requires IsDigits(s) && (s[0] == '0' ==> |s| == 1)
    ensures Print(ValueOf(s)) == s
  {
    var front, last := s[..|s| - 1], s[|s| - 1];
    assert IsDigit(last);
    var d: nat := last as int - '0' as int;
    assert DigitChar(d) == last;
    if |s| == 1 {
      assert front == [];
    } else {
      assert front[0] == s[0];
      DigitsArePrinted(front);
      assert Print(0)[0] == '0';
      PrintAppend(ValueOf(front), d);
      assert s == front + [last];
    }
  }
}

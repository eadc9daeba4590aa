/** Decimal numerals, as written by f-strings and read back by Redis INCR. */
module Decimal {
  import opened Wrappers

  function Digit(d: nat): (c: char)
    requires d < 10
    ensures '0' <= c <= '9' && c as int == '0' as int + d
  {
    ('0' as int + d) as char
  }

  function Numeral(n: nat): (s: string)
    ensures s != []
    ensures forall i :: 0 <= i < |s| ==> '0' <= s[i] <= '9'
    ensures n > 0 ==> s[0] != '0'
  {
    if n < 10 then [Digit(n)] else Numeral(n / 10) + [Digit(n % 10)]
  }

  /** Value of a digit string; None when a character is not a digit. */
  function Digits(s: string): (r: Option<nat>)
    ensures r.Some? <==> forall i :: 0 <= i < |s| ==> '0' <= s[i] <= '9'
  {
    if s == [] then Some(0)
    else
      var k := |s| - 1;
      assert forall i :: 0 <= i < k ==> s[..k][i] == s[i];
      var head := Digits(s[..k]);
      if head.None? || !('0' <= s[k] <= '9') then None
      else Some(10 * head.value + (s[k] as int - '0' as int))
  }

  /** The canonical integers Redis accepts: no empty string, no leading zero. */
  function Parse(s: string): (r: Option<nat>)
    ensures r.Some? ==> s != [] && forall i :: 0 <= i < |s| ==> '0' <= s[i] <= '9'
  {
    if s == [] || (s[0] == '0' && |s| > 1) then None else Digits(s)
  }

  lemma {:induction false} DigitsOfNumeral(n: nat)
    ensures Digits(Numeral(n)) == Some(n)
  {
    if n < 10 {
      var s := Numeral(n);
      assert s[..0] == [];
    } else {
      DigitsOfNumeral(n / 10);
      var s := Numeral(n);
      assert s[..|s| - 1] == Numeral(n / 10);
    }
  }

  /** Reading back a numeral recovers the number. */
  lemma ParseNumeral(n: nat)
    ensures Parse(Numeral(n)) == Some(n)
  {
    DigitsOfNumeral(n);
  }

  lemma NumeralInjective(m: nat, n: nat)
    requires Numeral(m) == Numeral(n)
    ensures m == n
  {
    ParseNumeral(m);
    ParseNumeral(n);
  }
}
